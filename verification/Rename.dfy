/**
 Renaming a service on every branch that carries it: one docker rename per branch, then one state
 write. Any docker call may fail, with or without having taken effect, and any probe may go
 unanswered; what was moved is moved back, newest first, and a later call finishes what is left.
 */
module Rename {
  import opened Options

  datatype Fault = Fine | Fails | FailsButDone | NoAnswer

  datatype Container = Container(ref: string, service: string)
  datatype Label = Label(service: string, ref: string)
  datatype App = App(host: Label, image: string)
  datatype Branch = Branch(ref: string, apps: map<string, App>)

  /** What stopped the call; the branches it could not move back, and the branch whose own rename
      reported a failure although it had landed. */
  datatype Result =
    | Renamed
    | Refused
    | Failed(stuck: set<string>, landed: Option<string>)

  function Moved(b: Branch, from: string, to: string): Branch {
    if from in b.apps then
      b.(apps := (b.apps - {from})[to := b.apps[from].(host := Label(to, b.ref))])
    else b
  }

  function AllMoved(branches: map<string, Branch>, from: string, to: string): map<string, Branch> {
    map id | id in branches :: Moved(branches[id], from, to)
  }

  function Retitled(groups: seq<string>, from: string, to: string): (r: seq<string>)
    ensures |r| == |groups|
    ensures forall i :: 0 <= i < |groups| ==> r[i] == if groups[i] == from then to else groups[i]
  {
    if groups == [] then [] else [if groups[0] == from then to else groups[0]] + Retitled(groups[1..], from, to)
  }

  function Rekeyed<V>(m: map<string, V>, from: string, to: string): map<string, V> {
    if from in m then (m - {from})[to := m[from]] else m
  }

  // ---- what a pass does to docker's container names, from `before` to `after` ----

  predicate Distinct(refs: seq<string>) {
    forall i, j :: 0 <= i < j < |refs| ==> refs[i] != refs[j]
  }

  lemma TakenOnce(refs: seq<string>, i: nat)
    requires Distinct(refs) && i < |refs|
    ensures refs[i] !in refs[..i] && refs[..i + 1] == refs[..i] + [refs[i]] && refs[i..] == [refs[i]] + refs[i + 1..]
  {
  }

  predicate NamesKept(before: set<Container>, after: set<Container>, ref: string, from: string, to: string) {
    && (Container(ref, from) in after <==> Container(ref, from) in before)
    && (Container(ref, to) in after <==> Container(ref, to) in before)
  }

  predicate MovedOver(before: set<Container>, after: set<Container>, ref: string, from: string, to: string) {
    && Container(ref, from) in before && Container(ref, to) !in before
    && Container(ref, from) !in after && Container(ref, to) in after
  }

  predicate UndoneOrStuck(before: set<Container>, after: set<Container>, ref: string, from: string, to: string, stuck: set<string>) {
    || MovedOver(before, after, ref, to, from)
    || (ref in stuck && NamesKept(before, after, ref, from, to))
  }

  /** The branch's container is on the new name, if it has one at all. */
  predicate OnNewName(before: set<Container>, after: set<Container>, ref: string, from: string, to: string) {
    && Container(ref, from) !in after
    && (Container(ref, to) in after <==> Container(ref, from) in before || Container(ref, to) in before)
  }

  lemma TwoPasses(before: set<Container>, between: set<Container>, after: set<Container>, ref: string, from: string, to: string)
    requires NamesKept(before, between, ref, from, to) || MovedOver(before, between, ref, from, to)
    requires OnNewName(between, after, ref, from, to)
    ensures OnNewName(before, after, ref, from, to)
  {
  }

  /** Containers of other services and of branches not listed. */
  ghost predicate OthersKept(before: set<Container>, after: set<Container>, refs: seq<string>, from: string, to: string) {
    forall c: Container :: c.ref !in refs || (c.service != from && c.service != to) ==> (c in after <==> c in before)
  }

  /** No branch has a container under both names at once. */
  predicate NeverBoth(containers: set<Container>, refs: seq<string>, from: string, to: string) {
    forall ref :: ref in refs ==> !(Container(ref, from) in containers && Container(ref, to) in containers)
  }

  /** `after` is `before` with every listed branch's new hostname claimed by `owner`. */
  ghost predicate Claimed(before: map<Label, string>, after: map<Label, string>, refs: seq<string>, service: string, owner: string) {
    forall l: Label ::
      if l.service == service && l.ref in refs then l in after && after[l] == owner
      else (l in after <==> l in before) && (l in before ==> after[l] == before[l])
  }

  /** What is left once `owner` gives its claims back. */
  function Unclaimed(claims: map<Label, string>, owner: string): map<Label, string> {
    map l | l in claims && claims[l] != owner :: claims[l]
  }

  /** What is left once the rows own the new hostnames and the old ones are nobody's. */
  function Retired(claims: map<Label, string>, branches: map<string, Branch>, from: string, owner: string): map<Label, string> {
    map l | l in claims && claims[l] != owner &&
      !(exists id :: id in branches && from in branches[id].apps && l == Label(from, branches[id].ref)) :: claims[l]
  }

  lemma ClaimsCanBeReleased(before: map<Label, string>, after: map<Label, string>, refs: seq<string>, service: string, owner: string)
    requires Claimed(before, after, refs, service, owner)
    requires forall l :: l in before ==> before[l] != owner
    requires forall ref :: ref in refs ==> Label(service, ref) !in before
    ensures Unclaimed(after, owner) == before
    ensures forall l :: l in after && after[l] != owner ==> l in before && after[l] == before[l]
  {
  }

  /** The refs of the branches that carry the service, in listing order. */
  function CarrierRefs(order: seq<string>, branches: map<string, Branch>, service: string): seq<string>
    requires forall id :: id in order ==> id in branches
  {
    if order == [] then []
    else
      var last := branches[order[|order| - 1]];
      CarrierRefs(order[..|order| - 1], branches, service) + if service in last.apps then [last.ref] else []
  }

  /** A forward pass that comes to `ref` at tick `clock` gets past it. A branch costs two ticks: the probe
      of the old name, and then the rename if it is there or the probe of the new name if it is not. */
  predicate GetsPast(faults: nat -> Fault, clock: nat, containers: set<Container>, ref: string, from: string, to: string) {
    && faults(clock) == Fine && faults(clock + 1) == Fine
    && !(Container(ref, from) in containers && Container(ref, to) in containers)
  }

  /** ... or is stopped there by a docker rename that reports a failure although it takes effect. */
  predicate LandsLate(faults: nat -> Fault, clock: nat, containers: set<Container>, ref: string, from: string, to: string) {
    && faults(clock) == Fine && faults(clock + 1) == FailsButDone
    && Container(ref, from) in containers && Container(ref, to) !in containers
  }

  /** The branch, if any, that a pass started at tick `clock` leaves on the new name without knowing. */
  function Landing(faults: nat -> Fault, clock: nat, containers: set<Container>, refs: seq<string>, from: string, to: string): Option<string>
    decreases |refs|
  {
    if refs == [] then None
    else if LandsLate(faults, clock, containers, refs[0], from, to) then Some(refs[0])
    else if GetsPast(faults, clock, containers, refs[0], from, to) then Landing(faults, clock + 2, containers, refs[1..], from, to)
    else None
  }

  predicate GotPast(faults: nat -> Fault, clock: nat, containers: set<Container>, refs: seq<string>, n: nat, from: string, to: string)
    requires n <= |refs|
  {
    forall i :: 0 <= i < n ==> GetsPast(faults, clock + 2 * i, containers, refs[i], from, to)
  }

  /** A pass that got past `n` branches and not past the next, if there is one, stopped there. */
  lemma {:induction false} LandingFound(faults: nat -> Fault, clock: nat, containers: set<Container>, refs: seq<string>, n: nat,
                                        from: string, to: string)
    requires n <= |refs| && GotPast(faults, clock, containers, refs, n, from, to)
    requires n < |refs| ==> !GetsPast(faults, clock + 2 * n, containers, refs[n], from, to)
    ensures Landing(faults, clock, containers, refs, from, to) ==
      if n < |refs| && LandsLate(faults, clock + 2 * n, containers, refs[n], from, to) then Some(refs[n]) else None
    decreases n
  {
    if n > 0 {
      assert GetsPast(faults, clock + 2 * 0, containers, refs[0], from, to);
      forall i | 0 <= i < n - 1 ensures GetsPast(faults, clock + 2 + 2 * i, containers, refs[1..][i], from, to) {
        assert GetsPast(faults, clock + 2 * (i + 1), containers, refs[i + 1], from, to);
      }
      LandingFound(faults, clock + 2, containers, refs[1..], n - 1, from, to);
    }
  }

  /** Only a rename that fails late can be left standing. */
  lemma {:induction false} LandingIsALateFailure(faults: nat -> Fault, clock: nat, containers: set<Container>, refs: seq<string>,
                                                 from: string, to: string)
    requires Landing(faults, clock, containers, refs, from, to).Some?
    ensures exists i: nat :: i >= clock && faults(i) == FailsButDone
    decreases |refs|
  {
    if !LandsLate(faults, clock, containers, refs[0], from, to) {
      LandingIsALateFailure(faults, clock + 2, containers, refs[1..], from, to);
    }
  }

  // ---- what a rename is to make of the records, told without how ----

  /** The row of a carrier has the service under the new name, on the hostname that spells it, and is
      otherwise as it was. */
  ghost predicate RowFollows(before: Branch, after: Branch, from: string, to: string) {
    && after.ref == before.ref
    && if from !in before.apps then after == before
       else
         && from !in after.apps && to in after.apps
         && after.apps[to].host == Label(to, before.ref) && after.apps[to].image == before.apps[from].image
         && forall g :: g != from && g != to ==>
              (g in after.apps <==> g in before.apps) && (g in before.apps ==> after.apps[g] == before.apps[g])
  }

  ghost predicate RowsFollow(before: map<string, Branch>, after: map<string, Branch>, from: string, to: string) {
    before.Keys == after.Keys && forall id :: id in before ==> RowFollows(before[id], after[id], from, to)
  }

  lemma AllMovedFollow(branches: map<string, Branch>, from: string, to: string)
    requires from != to
    ensures RowsFollow(branches, AllMoved(branches, from, to), from, to)
  {
    forall id | id in branches ensures RowFollows(branches[id], AllMoved(branches, from, to)[id], from, to) {
    }
  }

  ghost predicate SettingsFollow<V(!new)>(before: map<string, V>, after: map<string, V>, from: string, to: string) {
    && from !in after
    && Kept(after, to) == (if from in before then Some(before[from]) else Kept(before, to))
    && forall id :: id != from && id != to ==> Kept(after, id) == Kept(before, id)
  }

  /** The claims but those on the carriers' old hostnames. */
  ghost predicate ClaimsFollow(before: map<Label, string>, after: map<Label, string>, branches: map<string, Branch>, from: string) {
    && (forall l :: l in after <==> l in before && !(exists id :: id in branches && from in branches[id].apps && l == Label(from, branches[id].ref)))
    && (forall l :: l in after ==> after[l] == before[l])
  }

  /** The hostname that spells `to` on this branch is claimed by nobody, and no row but the branch's own,
      for `to`, is on it. */
  ghost predicate OwnHost(branches: map<string, Branch>, claims: map<Label, string>, id: string, to: string)
    requires id in branches
  {
    && Label(to, branches[id].ref) !in claims
    && forall other, g :: other in branches && g in branches[other].apps && branches[other].apps[g].host == Label(to, branches[id].ref) ==>
         other == id && g == to
  }

  ghost predicate NobodysHost(branches: map<string, Branch>, claims: map<Label, string>, id: string, to: string)
    requires id in branches
  {
    && Label(to, branches[id].ref) !in claims
    && forall other, g :: other in branches && g in branches[other].apps ==> branches[other].apps[g].host != Label(to, branches[id].ref)
  }

  ghost predicate RefsApart(branches: map<string, Branch>) {
    forall a, b :: a in branches && b in branches && a != b ==> branches[a].ref != branches[b].ref
  }

  /** No two rows answer on one hostname. */
  ghost predicate HostsApart(branches: map<string, Branch>) {
    forall a, g, b, h :: a in branches && g in branches[a].apps && b in branches && h in branches[b].apps && (a != b || g != h) ==>
      branches[a].apps[g].host != branches[b].apps[h].host
  }

  lemma OwnHostFollows(before: map<string, Branch>, after: map<string, Branch>, claims: map<Label, string>, claims': map<Label, string>,
                       id: string, from: string, to: string)
    requires RowsFollow(before, after, from, to) && RefsApart(before) && id in before
    requires NobodysHost(before, claims, id, to) && claims'.Keys <= claims.Keys
    ensures OwnHost(after, claims', id, to)
  {
    forall other, g | other in after && g in after[other].apps && after[other].apps[g].host == Label(to, after[id].ref)
      ensures other == id && g == to
    {
      assert RowFollows(before[other], after[other], from, to) && RowFollows(before[id], after[id], from, to);
    }
  }

  /** A rename gives no row a hostname another row is on. */
  lemma HostsStayApart(before: map<string, Branch>, after: map<string, Branch>, claims: map<Label, string>, from: string, to: string)
    requires RowsFollow(before, after, from, to) && HostsApart(before)
    requires forall id :: id in before && from in before[id].apps ==> OwnHost(after, claims, id, to)
    ensures HostsApart(after)
  {
    forall a, g, b, h | a in after && g in after[a].apps && b in after && h in after[b].apps && (a != b || g != h)
      ensures after[a].apps[g].host != after[b].apps[h].host
    {
      assert RowFollows(before[a], after[a], from, to) && RowFollows(before[b], after[b], from, to);
      if from in before[a].apps && g == to {
        assert OwnHost(after, claims, a, to);
      } else if from in before[b].apps && h == to {
        assert OwnHost(after, claims, b, to);
      }
    }
  }

  /** What a map keeps for a service id. */
  function Kept<V>(m: map<string, V>, id: string): Option<V> {
    if id in m then Some(m[id]) else None
  }

  class Project {
    const faults: nat -> Fault
    var clock: nat
    var containers: set<Container>
    var order: seq<string>
    var branches: map<string, Branch>
    var groups: seq<string>
    var settings: map<string, string>
    var bindings: seq<string>
    var hostReservations: map<Label, string>

    constructor (faults: nat -> Fault, containers: set<Container>, order: seq<string>, branches: map<string, Branch>,
        groups: seq<string>, settings: map<string, string>, bindings: seq<string>)
      ensures this.containers == containers && this.order == order && this.branches == branches
      ensures this.groups == groups && this.settings == settings && this.bindings == bindings && hostReservations == map[]
      ensures this.faults == faults && clock == 0
    {
      this.faults, this.clock := faults, 0;
      this.containers, this.order, this.branches := containers, order, branches;
      this.groups, this.settings, this.bindings, this.hostReservations := groups, settings, bindings, map[];
    }

    predicate HostFree(host: Label, owner: string)
      reads this`hostReservations, this`branches
    {
      && (host in hostReservations ==> hostReservations[host] == owner)
      && forall id, g :: id in branches && g in branches[id].apps ==> branches[id].apps[g].host != host
    }

    ghost predicate AllFine()
      reads this`clock
    {
      forall i: nat :: i >= clock ==> faults(i) == Fine
    }

    method Tick() returns (f: Fault)
      modifies this`clock
      ensures f == faults(old(clock)) && clock == old(clock) + 1
      ensures old(AllFine()) ==> f == Fine && AllFine()
    {
      f := faults(clock);
      clock := clock + 1;
    }

    /** `docker rename`: refuses a missing source and a taken target. */
    method DockerRename(from: Container, to: Container) returns (ok: bool)
      requires from != to
      modifies this`clock, this`containers
      ensures clock == old(clock) + 1
      ensures var possible := from in old(containers) && to !in old(containers);
        && (ok <==> possible && faults(old(clock)) == Fine)
        && containers == if possible && (ok || faults(old(clock)) == FailsButDone) then old(containers) - {from} + {to} else old(containers)
      ensures old(AllFine()) ==> AllFine()
    {
      var f := Tick();
      if from in containers && to !in containers && f != Fails && f != NoAnswer {
        containers := containers - {from} + {to};
        ok := f == Fine;
      } else {
        ok := false;
      }
    }

    /** Decided on evidence: `None` when docker could not answer. */
    method RenameNeeded(from: Container, to: Container) returns (needed: Option<bool>)
      modifies this`clock
      ensures needed.Some? ==> (needed.value <==> from in containers)
      ensures needed.Some? <==> faults(old(clock)) == Fine && (from in containers || faults(old(clock) + 1) == Fine)
      ensures needed.Some? ==> clock == old(clock) + if from in containers then 1 else 2
      ensures old(AllFine()) ==> AllFine() && needed.Some?
    {
      var f := Tick();
      if f != Fine { return None; }
      if from in containers { return Some(true); }
      f := Tick();
      needed := if f == Fine then Some(false) else None;
    }

    /** One branch of the forward pass, whose names are still those of `before`. */
    method MoveOne(ref: string, from: string, to: string, ghost before: set<Container>) returns (ok: bool, moved: bool, landed: bool)
      requires from != to && NamesKept(before, containers, ref, from, to)
      modifies this`clock, this`containers
      ensures ok <==> GetsPast(faults, old(clock), before, ref, from, to)
      ensures landed <==> LandsLate(faults, old(clock), before, ref, from, to)
      ensures ok ==> clock == old(clock) + 2 && OnNewName(before, containers, ref, from, to)
      ensures moved || landed ==> MovedOver(before, containers, ref, from, to)
      ensures !moved && !landed ==> containers == old(containers)
      ensures moved ==> ok && !landed
      ensures forall c: Container :: c.ref != ref || (c.service != from && c.service != to) ==> (c in containers <==> c in old(containers))
      ensures old(AllFine()) ==> AllFine()
    {
      var needed := RenameNeeded(Container(ref, from), Container(ref, to));
      if needed == None { return false, false, false; }
      if !needed.value { return true, false, false; }
      ok := DockerRename(Container(ref, from), Container(ref, to));
      moved, landed := ok, !ok && Container(ref, from) !in containers;
    }

    /** The forward pass. Stops at the first branch it cannot move; `done` lists what it moved and
        `landed` the one whose docker call failed although it took effect. */
    method MoveAll(refs: seq<string>, from: string, to: string) returns (ok: bool, done: seq<string>, landed: Option<string>)
      requires Distinct(refs) && from != to
      modifies this`clock, this`containers
      ensures OthersKept(old(containers), containers, refs, from, to)
      ensures Distinct(done) && forall ref :: ref in done ==> ref in refs && MovedOver(old(containers), containers, ref, from, to)
      ensures landed.Some? ==> landed.value in refs && landed.value !in done && MovedOver(old(containers), containers, landed.value, from, to)
      ensures forall ref :: ref in refs && ref !in done && landed != Some(ref) ==> NamesKept(old(containers), containers, ref, from, to)
      ensures ok ==> landed == None && forall ref :: ref in refs ==> OnNewName(old(containers), containers, ref, from, to)
      ensures landed == Landing(faults, old(clock), old(containers), refs, from, to)
      ensures old(AllFine()) ==> AllFine() && (NeverBoth(old(containers), refs, from, to) ==> ok)
    {
      ok, done, landed := true, [], None;
      for i := 0 to |refs|
        invariant ok && landed == None && OthersKept(old(containers), containers, refs, from, to)
        invariant Distinct(done) && forall ref :: ref in done ==> MovedOver(old(containers), containers, ref, from, to)
        invariant forall ref :: ref in done ==> exists k :: 0 <= k < i && refs[k] == ref
        invariant forall k :: 0 <= k < i ==> OnNewName(old(containers), containers, refs[k], from, to)
        invariant forall ref :: ref !in done ==> NamesKept(old(containers), containers, ref, from, to)
        invariant GotPast(faults, old(clock), old(containers), refs, i, from, to) && clock == old(clock) + 2 * i
        invariant old(AllFine()) ==> AllFine()
      {
        var ref := refs[i];
        assert ref !in done && NamesKept(old(containers), containers, ref, from, to);
        var moved, late;
        ok, moved, late := MoveOne(ref, from, to, old(containers));
        if !ok {
          LandingFound(faults, old(clock), old(containers), refs, i, from, to);
          return false, done, if late then Some(ref) else None;
        }
        if moved { done := done + [ref]; }
      }
      LandingFound(faults, old(clock), old(containers), refs, |refs|, from, to);
    }

    /** Newest first; what cannot be moved back is listed and the rest is still tried. */
    method UndoAll(done: seq<string>, from: string, to: string) returns (stuck: set<string>)
      requires Distinct(done) && from != to
      requires forall ref :: ref in done ==> Container(ref, from) !in containers && Container(ref, to) in containers
      modifies this`clock, this`containers
      ensures OthersKept(old(containers), containers, done, from, to)
      ensures forall i :: 0 <= i < |done| ==> UndoneOrStuck(old(containers), containers, done[i], from, to, stuck)
      ensures stuck <= set ref | ref in done
      ensures old(AllFine()) ==> AllFine() && stuck == {}
    {
      stuck := {};
      for i := |done| downto 0
        invariant OthersKept(old(containers), containers, done, from, to)
        invariant forall k :: i <= k < |done| ==> UndoneOrStuck(old(containers), containers, done[k], from, to, stuck)
        invariant forall k :: 0 <= k < i ==> NamesKept(old(containers), containers, done[k], from, to)
        invariant stuck <= set ref | ref in done
        invariant old(AllFine()) ==> AllFine() && stuck == {}
      {
        assert NamesKept(old(containers), containers, done[i], from, to);
        var back := DockerRename(Container(done[i], to), Container(done[i], from));
        if !back { stuck := stuck + {done[i]}; }
      }
    }

    /** The forward pass, and its compensation when it stops. */
    method MoveContainers(refs: seq<string>, from: string, to: string) returns (r: Result)
      requires Distinct(refs) && from != to
      modifies this`clock, this`containers
      ensures r != Refused && OthersKept(old(containers), containers, refs, from, to)
      ensures r == Renamed ==> forall ref :: ref in refs ==> OnNewName(old(containers), containers, ref, from, to)
      ensures r.Failed? ==> forall ref :: ref in refs ==>
        || NamesKept(old(containers), containers, ref, from, to)
        || (MovedOver(old(containers), containers, ref, from, to) && (ref in r.stuck || r.landed == Some(ref)))
      // The one a late failure left on the new name is named by what docker did, and stays there.
      ensures Landing(faults, old(clock), old(containers), refs, from, to) == if r.Failed? then r.landed else None
      ensures r.Failed? && r.landed.Some? ==> r.landed.value in refs && MovedOver(old(containers), containers, r.landed.value, from, to)
      ensures r.Failed? ==> forall ref :: ref in r.stuck ==> ref in refs && r.landed != Some(ref)
      // So when every undo succeeds the names are as before exactly when there is none.
      ensures r.Failed? && r.stuck == {} ==> (containers == old(containers) <==> r.landed == None)
      ensures old(AllFine()) && NeverBoth(old(containers), refs, from, to) ==> r == Renamed
    {
      var ok, done, landed := MoveAll(refs, from, to);
      if ok { return Renamed; }
      ghost var between := containers;
      var stuck := UndoAll(done, from, to);
      r := Failed(stuck, landed);
      forall ref | ref in refs
        ensures NamesKept(old(containers), containers, ref, from, to) ||
          (MovedOver(old(containers), containers, ref, from, to) && (ref in stuck || landed == Some(ref)))
      {
        if ref !in done {
          assert NamesKept(between, containers, ref, from, to);
        } else {
          assert UndoneOrStuck(between, containers, ref, from, to, stuck);
        }
      }
      if landed.Some? {
        assert landed.value !in done;
        assert NamesKept(between, containers, landed.value, from, to);
        assert Container(landed.value, from) in old(containers) && Container(landed.value, from) !in containers;
      } else if stuck == {} {
        forall c ensures c in containers <==> c in old(containers) {
          if c.ref in refs && c.service != from && c.service != to {
            assert c in containers <==> c in between;
          } else if c.ref in refs {
            assert NamesKept(old(containers), containers, c.ref, from, to);
          }
        }
      }
    }

    // ---- the whole rename ----

    /** Every listed branch exists, and no two share a ref. */
    ghost predicate Valid()
      reads this`order, this`branches
    {
      && (forall id :: id in order <==> id in branches)
      && (forall i, j :: 0 <= i < j < |order| ==> order[i] != order[j])
      && (forall a, b :: a in branches && b in branches && a != b ==> branches[a].ref != branches[b].ref)
    }

    /** The refs of the branches that carry the service, in listing order. */
    method Carriers(service: string) returns (refs: seq<string>)
      requires Valid()
      ensures Distinct(refs) && refs == CarrierRefs(order, branches, service)
      ensures forall ref :: ref in refs <==> exists id :: id in branches && service in branches[id].apps && branches[id].ref == ref
    {
      refs := [];
      for i := 0 to |order|
        invariant Distinct(refs) && refs == CarrierRefs(order[..i], branches, service)
        invariant forall ref :: ref in refs <==>
          exists id :: id in order[..i] && service in branches[id].apps && branches[id].ref == ref
      {
        assert order[i] in order;
        var b := branches[order[i]];
        assert order[..i + 1] == order[..i] + [order[i]] && order[..i + 1][..i] == order[..i];
        forall id | id in order[..i] ensures id in branches && branches[id].ref != b.ref {
          var j :| 0 <= j < i && order[j] == id;
          assert order[j] != order[i] && id in order;
        }
        assert b.ref !in refs;
        if service in b.apps {
          refs := refs + [b.ref];
        }
      }
      assert order[..|order|] == order;
    }

    /** A branch without the service mints nothing now, but its next deploy will: the new name has to
        be free there too. Nothing is reserved for it. */
    predicate FreeOnOthers(from: string, to: string)
      reads this`branches, this`hostReservations
    {
      forall id :: id in branches && from !in branches[id].apps ==>
        Label(to, branches[id].ref) !in hostReservations && HostFree(Label(to, branches[id].ref), "")
    }

    /** `reserveHosts`: every new hostname is free (or this call's already) and none is asked for
        twice, or nothing is reserved. */
    method ReserveHosts(refs: seq<string>, service: string, owner: string) returns (ok: bool)
      requires Distinct(refs)
      modifies this`hostReservations
      ensures ok <==> forall ref :: ref in refs ==> old(HostFree(Label(service, ref), owner))
      ensures !ok ==> hostReservations == old(hostReservations)
      ensures ok ==> Claimed(old(hostReservations), hostReservations, refs, service, owner)
    {
      if exists ref :: ref in refs && !HostFree(Label(service, ref), owner) {
        return false;
      }
      ok := true;
      for i := 0 to |refs|
        invariant Claimed(old(hostReservations), hostReservations, refs[..i], service, owner)
      {
        TakenOnce(refs, i);
        hostReservations := hostReservations[Label(service, refs[i]) := owner];
      }
      assert refs[..|refs|] == refs;
    }

    method ReleaseHosts(owner: string)
      modifies this`hostReservations
      ensures hostReservations == Unclaimed(old(hostReservations), owner)
    {
      hostReservations := Unclaimed(hostReservations, owner);
    }

    method MovedRows(from: string, to: string) returns (rows: map<string, Branch>)
      requires Valid()
      ensures rows == AllMoved(branches, from, to)
    {
      rows := branches;
      for i := 0 to |order|
        invariant rows.Keys == branches.Keys
        invariant forall k :: 0 <= k < i ==> rows[order[k]] == Moved(branches[order[k]], from, to)
        invariant forall k :: i <= k < |order| ==> rows[order[k]] == branches[order[k]]
      {
        rows := rows[order[i] := Moved(rows[order[i]], from, to)];
      }
      forall id | id in branches ensures rows[id] == Moved(branches[id], from, to) {
        assert id in order;
      }
    }

    /** The state write of the rename: every carrier's row, the registration and what is keyed by it. */
    method MoveRows(from: string, to: string, owner: string)
      requires Valid() && from != to
      modifies this`branches, this`groups, this`settings, this`bindings, this`hostReservations
      ensures RowsMoved(from, to) && SettingsFollow(old(settings), settings, from, to)
      ensures ClaimsFollow(Unclaimed(old(hostReservations), owner), hostReservations, old(branches), from)
    {
      AllMovedFollow(branches, from, to);
      hostReservations := Retired(hostReservations, branches, from, owner);
      groups := Retitled(groups, from, to);
      bindings := Retitled(bindings, from, to);
      settings := Rekeyed(settings, from, to);
      var rows := MovedRows(from, to);
      branches := rows;
    }

    ghost predicate Carrier(ref: string, service: string)
      reads this`branches
    {
      exists id :: id in branches && service in branches[id].apps && branches[id].ref == ref
    }

    ghost predicate NeverBothAnywhere(from: string, to: string)
      reads this`branches, this`containers
    {
      forall ref :: Carrier(ref, from) ==> !(Container(ref, from) in containers && Container(ref, to) in containers)
    }

    /** Docker answers, the names are right, and every hostname to be minted is free. */
    ghost predicate CanRename(from: string, to: string, owner: string)
      reads this
    {
      && AllFine() && from in groups && to !in groups && NeverBothAnywhere(from, to) && FreeOnOthers(from, to)
      && !HostTaken(from, to, owner)
    }

    /** Some hostname the rename would mint is taken. */
    ghost predicate HostTaken(from: string, to: string, owner: string)
      reads this`branches, this`hostReservations
    {
      exists ref :: Carrier(ref, from) && !HostFree(Label(to, ref), owner)
    }

    /** What both renames do of every carrier: claim the hostnames, move the containers, and give the
        claims back if that fails. */
    method MoveCarriers(from: string, to: string, owner: string) returns (r: Result)
      requires Valid() && from != to
      requires forall l :: l in hostReservations ==> hostReservations[l] != owner
      modifies this`clock, this`containers, this`hostReservations
      ensures r == Refused <==> old(HostTaken(from, to, owner))
      ensures r == Refused ==> containers == old(containers)
      ensures r != Renamed ==> hostReservations == old(hostReservations)
      ensures r.Failed? ==> BackOrNamed(r, from, to)
      // A late failure is found from what docker did, and when every undo succeeds the container names
      // are exactly as before if and only if there was none.
      ensures r != Refused ==> (if r.Failed? then r.landed else None) == old(LandingOf(from, to))
      ensures r.Failed? ==> forall ref :: ref in r.stuck ==> old(Carrier(ref, from)) && r.landed != Some(ref)
      ensures r.Failed? && r.stuck == {} ==> (containers == old(containers) <==> r.landed == None)
      ensures r == Renamed ==> AllOnNewName(from, to)
      ensures r == Renamed ==> Unclaimed(hostReservations, owner) == old(hostReservations)
      ensures OthersStand(from, to)
      ensures old(AllFine() && NeverBothAnywhere(from, to)) ==> r == Refused || r == Renamed
    {
      var refs := Carriers(from);
      var reserved := ReserveHosts(refs, to, owner);
      if !reserved { return Refused; }
      ClaimsCanBeReleased(old(hostReservations), hostReservations, refs, to, owner);
      r := MoveContainers(refs, from, to);
      if r.Failed? {
        ReleaseHosts(owner);
      }
    }

    /** `Landing` over the carriers. */
    ghost function LandingOf(from: string, to: string): Option<string>
      requires Valid()
      reads this
    {
      Landing(faults, clock, containers, CarrierRefs(order, branches, from), from, to)
    }

    lemma CarrierNamesAreFree(from: string, to: string, owner: string)
      requires !HostTaken(from, to, owner) && forall l :: l in hostReservations ==> hostReservations[l] != owner
      ensures forall id :: id in branches && from in branches[id].apps ==> NobodysHost(branches, hostReservations, id, to)
    {
      forall id | id in branches && from in branches[id].apps ensures NobodysHost(branches, hostReservations, id, to) {
        assert Carrier(branches[id].ref, from);
      }
    }

    lemma NamesAreFree(from: string, to: string, owner: string)
      requires !HostTaken(from, to, owner) && FreeOnOthers(from, to) && forall l :: l in hostReservations ==> hostReservations[l] != owner
      ensures forall id :: id in branches ==> NobodysHost(branches, hostReservations, id, to)
    {
      CarrierNamesAreFree(from, to, owner);
      forall id | id in branches && from !in branches[id].apps ensures NobodysHost(branches, hostReservations, id, to) {
      }
    }

    /** Of every branch, carrier or not. */
    twostate predicate NewNameIsOwn(to: string)
      reads this`branches, this`hostReservations
    {
      forall id :: id in branches ==> OwnHost(branches, hostReservations, id, to)
    }

    /** The compute arm, once the name is known to be free: the containers, and then the records. */
    method MoveGroup(from: string, to: string, owner: string) returns (r: Result)
      requires Valid() && from != to && FreeOnOthers(from, to)
      requires forall l :: l in hostReservations ==> hostReservations[l] != owner
      modifies this`clock, this`containers, this`branches, this`groups, this`settings, this`bindings, this`hostReservations
      ensures r == Refused <==> old(HostTaken(from, to, owner))
      ensures r == Refused ==> containers == old(containers)
      ensures if r == Renamed then RecordsMoved(from, to) && AllOnNewName(from, to) else RecordsKept()
      ensures r == Renamed ==> NewNameIsOwn(to) && (old(HostsApart(branches)) ==> HostsApart(branches))
      ensures r.Failed? ==> BackOrNamed(r, from, to)
      ensures r != Refused ==> (if r.Failed? then r.landed else None) == old(LandingOf(from, to))
      ensures r.Failed? ==> forall ref :: ref in r.stuck ==> old(Carrier(ref, from)) && r.landed != Some(ref)
      ensures r.Failed? && r.stuck == {} ==> (containers == old(containers) <==> r.landed == None)
      ensures OthersStand(from, to)
      ensures old(AllFine() && NeverBothAnywhere(from, to)) ==> r == Refused || r == Renamed
    {
      ghost var was, claims := branches, hostReservations;
      if !HostTaken(from, to, owner) { NamesAreFree(from, to, owner); }
      r := MoveCarriers(from, to, owner);
      if r == Renamed {
        MoveRows(from, to, owner);
        forall id | id in branches ensures OwnHost(branches, hostReservations, id, to) {
          OwnHostFollows(was, branches, claims, hostReservations, id, from, to);
        }
        if HostsApart(was) { HostsStayApart(was, branches, hostReservations, from, to); }
      }
    }

    /** `renameComputeService` under its keys. `owner` names this operation in the claims. */
    method RenameService(from: string, to: string, owner: string) returns (r: Result)
      requires Valid()
      requires forall l :: l in hostReservations ==> hostReservations[l] != owner
      modifies this`clock, this`containers, this`branches, this`groups, this`settings, this`bindings, this`hostReservations
      ensures r == Refused <==>
        old(from !in groups || (from != to && (to in groups || !FreeOnOthers(from, to) || HostTaken(from, to, owner))))
      ensures r == Refused || from == to ==> containers == old(containers) && RecordsKept()
      // A docker rename failed: no row moved, and every container is back where it was except the
      // ones named in the result.
      ensures r.Failed? ==> RecordsKept() && BackOrNamed(r, from, to)
      // When every undo succeeds the container names are as before exactly when no rename failed late.
      ensures r != Refused && from != to ==> (if r.Failed? then r.landed else None) == old(LandingOf(from, to))
      ensures r.Failed? ==> forall ref :: ref in r.stuck ==> old(Carrier(ref, from)) && r.landed != Some(ref)
      ensures r.Failed? && r.stuck == {} ==> (containers == old(containers) <==> old(LandingOf(from, to)) == None)
      ensures r.Failed? && old(NeverBothAnywhere(from, to)) ==> NeverBothAnywhere(from, to)
      // Success, from whatever mixture of old and new names an earlier call left.
      ensures r == Renamed && from != to ==> RecordsMoved(from, to) && AllOnNewName(from, to)
      ensures r == Renamed && from != to ==> NewNameIsOwn(to)
      ensures old(HostsApart(branches)) ==> HostsApart(branches)
      ensures OthersStand(from, to)
      ensures old(CanRename(from, to, owner)) ==> r == Renamed
    {
      if from !in groups { return Refused; }
      if from == to { return Renamed; }
      if to in groups || !FreeOnOthers(from, to) { return Refused; }
      r := MoveGroup(from, to, owner);
    }

    twostate predicate CarriersOwnTheirHosts(from: string, to: string)
      reads this`branches, this`hostReservations
    {
      && branches.Keys == old(branches).Keys
      && forall id :: id in old(branches) && from in old(branches)[id].apps ==> OwnHost(branches, hostReservations, id, to)
    }

    ghost predicate CanRenameManaged(from: string, to: string, owner: string)
      reads this
    {
      && AllFine() && from in groups && to !in groups && NeverBothAnywhere(from, to)
      && !HostTaken(from, to, owner)
    }

    /** The state write of a managed rename. What is kept by service id in the project's settings is not
        part of it, and neither is a claim left standing on an old hostname. */
    method MoveManagedRows(from: string, to: string, owner: string)
      requires Valid() && from != to
      modifies this`branches, this`groups, this`bindings, this`hostReservations
      ensures RowsMoved(from, to) && hostReservations == Unclaimed(old(hostReservations), owner)
    {
      AllMovedFollow(branches, from, to);
      ReleaseHosts(owner);
      groups := Retitled(groups, from, to);
      bindings := Retitled(bindings, from, to);
      var rows := MovedRows(from, to);
      branches := rows;
    }

    /** The managed arm, once the name is known to be free: the containers, and then the rows. */
    method MoveManaged(from: string, to: string, owner: string) returns (r: Result)
      requires Valid() && from != to
      requires forall l :: l in hostReservations ==> hostReservations[l] != owner
      modifies this`clock, this`containers, this`branches, this`groups, this`bindings, this`hostReservations
      ensures r == Refused <==> old(HostTaken(from, to, owner))
      ensures r == Refused ==> containers == old(containers)
      ensures hostReservations == old(hostReservations)
      ensures if r == Renamed then RowsMoved(from, to) && AllOnNewName(from, to) else RowsKept()
      ensures r == Renamed ==> CarriersOwnTheirHosts(from, to) && (old(HostsApart(branches)) ==> HostsApart(branches))
      ensures r.Failed? ==> BackOrNamed(r, from, to)
      ensures r != Refused ==> (if r.Failed? then r.landed else None) == old(LandingOf(from, to))
      ensures r.Failed? && r.stuck == {} ==> (containers == old(containers) <==> r.landed == None)
      ensures OthersStand(from, to)
      ensures old(AllFine() && NeverBothAnywhere(from, to)) ==> r == Refused || r == Renamed
    {
      ghost var was, claims := branches, hostReservations;
      if !HostTaken(from, to, owner) { CarrierNamesAreFree(from, to, owner); }
      r := MoveCarriers(from, to, owner);
      if r == Renamed {
        MoveManagedRows(from, to, owner);
        forall id | id in was && from in was[id].apps ensures OwnHost(branches, hostReservations, id, to) {
          OwnHostFollows(was, branches, claims, hostReservations, id, from, to);
        }
        if HostsApart(was) { HostsStayApart(was, branches, hostReservations, from, to); }
      }
    }

    /** `renameManagedService` under its keys: the same pass over containers, with no check on branches
        that do not carry the service. */
    method RenameManagedService(from: string, to: string, owner: string) returns (r: Result)
      requires Valid()
      requires forall l :: l in hostReservations ==> hostReservations[l] != owner
      modifies this`clock, this`containers, this`branches, this`groups, this`bindings, this`hostReservations
      ensures r == Refused <==> old(from !in groups || (from != to && (to in groups || HostTaken(from, to, owner))))
      ensures r == Refused || from == to ==> containers == old(containers)
      ensures hostReservations == old(hostReservations)
      ensures if r == Renamed && from != to then RowsMoved(from, to) && AllOnNewName(from, to) else RowsKept()
      ensures r == Renamed && from != to ==> CarriersOwnTheirHosts(from, to)
      ensures old(HostsApart(branches)) ==> HostsApart(branches)
      ensures r.Failed? ==> BackOrNamed(r, from, to)
      ensures r != Refused && from != to ==> (if r.Failed? then r.landed else None) == old(LandingOf(from, to))
      ensures r.Failed? && r.stuck == {} ==> (containers == old(containers) <==> r.landed == None)
      // What is kept by service id stays under the old id, so the new id comes to have the old one's
      // exactly when the two already agreed.
      ensures settings == old(settings)
      ensures Kept(settings, to) == old(Kept(settings, from)) <==> old(Kept(settings, to) == Kept(settings, from))
      ensures OthersStand(from, to)
      ensures old(CanRenameManaged(from, to, owner)) ==> r == Renamed
    {
      if from !in groups { return Refused; }
      if from == to { return Renamed; }
      if to in groups { return Refused; }
      r := MoveManaged(from, to, owner);
    }

    /** Every carrier's container is back where it was, but for those the result names. */
    twostate predicate BackOrNamed(r: Result, from: string, to: string)
      requires r.Failed?
      reads this`containers
    {
      forall ref :: old(Carrier(ref, from)) ==>
        || NamesKept(old(containers), containers, ref, from, to)
        || (MovedOver(old(containers), containers, ref, from, to) && (ref in r.stuck || r.landed == Some(ref)))
    }

    twostate predicate AllOnNewName(from: string, to: string)
      reads this`containers
    {
      forall ref :: old(Carrier(ref, from)) ==> OnNewName(old(containers), containers, ref, from, to)
    }

    twostate predicate RowsMoved(from: string, to: string)
      reads this`branches, this`groups, this`bindings
    {
      && RowsFollow(old(branches), branches, from, to)
      && groups == Retitled(old(groups), from, to) && bindings == Retitled(old(bindings), from, to)
    }

    twostate predicate RowsKept()
      reads this`branches, this`groups, this`bindings
    {
      branches == old(branches) && groups == old(groups) && bindings == old(bindings)
    }

    twostate predicate RecordsKept()
      reads this
    {
      RowsKept() && settings == old(settings) && hostReservations == old(hostReservations)
    }

    /** Every row that named the service, its registration and all that is keyed by it follow. */
    twostate predicate RecordsMoved(from: string, to: string)
      reads this
    {
      && RowsMoved(from, to) && SettingsFollow(old(settings), settings, from, to)
      && ClaimsFollow(old(hostReservations), hostReservations, old(branches), from)
    }

    /** Containers of other services and of branches that do not carry this one. */
    twostate predicate OthersStand(from: string, to: string)
      reads this`containers
    {
      forall c: Container :: !old(Carrier(c.ref, from)) || (c.service != from && c.service != to) ==> (c in containers <==> c in old(containers))
    }

    /** Re-running a rename that stopped partway: the two calls amount to one rename of what was there
        before the first, whatever the first could not move back. */
    method RenameAgain(from: string, to: string, owner: string) returns (first: Result, second: Result)
      requires Valid() && from != to
      requires forall l :: l in hostReservations ==> hostReservations[l] != owner
      modifies this`clock, this`containers, this`branches, this`groups, this`settings, this`bindings, this`hostReservations
      ensures first.Failed? && second == Renamed ==>
        && AllOnNewName(from, to) && RowsFollow(old(branches), branches, from, to)
        && OthersStand(from, to)
    {
      first := RenameService(from, to, owner);
      second := first;
      if first.Failed? {
        ghost var between := containers;
        second := RenameService(from, to, owner);
        if second == Renamed {
          forall ref | old(Carrier(ref, from)) ensures OnNewName(old(containers), containers, ref, from, to) {
            TwoPasses(old(containers), between, containers, ref, from, to);
          }
        }
      }
    }
  }

  // ---- what each exception looks like ----

  /** One branch, `from` deployed on it and recorded with always-on. */
  ghost predicate IsOneCarrier(p: Project, id: string, ref: string, from: string)
    reads p
  {
    && p.order == [id] && p.branches == map[id := Branch(ref, map[from := App(Label(from, ref), "img")])]
    && p.containers == {Container(ref, from)} && p.groups == [from] && p.settings == map[from := "always-on"]
    && p.hostReservations == map[]
  }

  method OneCarrier(faults: nat -> Fault, id: string, ref: string, from: string) returns (p: Project)
    ensures fresh(p) && IsOneCarrier(p, id, ref, from) && p.clock == 0 && p.faults == faults
  {
    p := new Project(faults, {Container(ref, from)}, [id], map[id := Branch(ref, map[from := App(Label(from, ref), "img")])],
                     [from], map[from := "always-on"], []);
  }

  lemma OneCarrierHas(p: Project, id: string, ref: string, from: string)
    requires IsOneCarrier(p, id, ref, from)
    ensures p.Valid() && (forall x :: p.Carrier(x, from) <==> x == ref)
    ensures CarrierRefs(p.order, p.branches, from) == [ref]
    ensures forall to, owner :: to != from ==> p.HostFree(Label(to, ref), owner)
  {
    assert id in p.branches && from in p.branches[id].apps;
    assert p.order[..0] == [];
  }

  lemma MovedAlone(after: set<Container>, ref: string, from: string, to: string)
    requires MovedOver({Container(ref, from)}, after, ref, from, to)
    requires forall c: Container :: c.ref != ref || (c.service != from && c.service != to) ==> c !in after
    ensures after == {Container(ref, to)}
  {
  }

  /** The docker rename of the one branch fails after taking effect. Nothing is stuck, every record still
      says the old name, and the container is on the new one. */
  method LateFailureIsLeftStanding(id: string, ref: string, from: string, to: string, owner: string) returns (p: Project, r: Result)
    requires from != to
    ensures fresh(p) && r == Failed({}, Some(ref)) && p.containers == {Container(ref, to)}
    ensures p.groups == [from] && p.branches == map[id := Branch(ref, map[from := App(Label(from, ref), "img")])]
  {
    p := OneCarrier(i => if i == 1 then FailsButDone else Fine, id, ref, from);
    OneCarrierHas(p, id, ref, from);
    assert p.LandingOf(from, to) == Some(ref);
    r := p.RenameService(from, to, owner);
    MovedAlone(p.containers, ref, from, to);
  }

  /** A managed rename with docker answering throughout: always-on stays behind under the old id. */
  method SettingsAreLeftBehind(id: string, ref: string, from: string, to: string, owner: string) returns (p: Project, r: Result)
    requires from != to
    ensures fresh(p) && r == Renamed && p.groups == [to] && p.containers == {Container(ref, to)}
    ensures Kept(p.settings, from) == Some("always-on") && Kept(p.settings, to) == None
  {
    p := OneCarrier(i => Fine, id, ref, from);
    OneCarrierHas(p, id, ref, from);
    assert p.CanRenameManaged(from, to, owner);
    r := p.RenameManagedService(from, to, owner);
    MovedAlone(p.containers, ref, from, to);
  }
}
