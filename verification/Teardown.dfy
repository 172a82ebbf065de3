/**
 Demolishing a branch, and a project branch by branch over one shared counter.

 A removal is never its own evidence: a container counts as gone only when docker, asked afterwards,
 answers without it. Any removal may fail or remove only part, and any probe may go unanswered.
 */
module Teardown {

  /** `Partly(kept)` fails after removing everything but what it keeps; `Remembered` is a probe that
      still reads a newer record of the container. */
  datatype Fault = Fine | Fails | Partly(kept: set<string>) | Remembered

  datatype Presence = Present | Gone | Unknown

  datatype Container = Container(ref: string, service: string)
  /** A ref's directories: databases, compute volumes, managed databases. There are no others. */
  datatype RootKind = Pg | Vol | Md
  datatype Root = Root(ref: string, kind: RootKind)
  datatype Key = Key(branch: string, service: string)
  datatype Secret = Secret(name: string, branch: string)

  datatype Branch = Branch(
    ref: string, name: string, network: string,
    apps: seq<string>, dbs: seq<string>, managed: seq<string>, buckets: seq<string>,
    cleanupFailed: bool)
  {
    predicate Runs(service: string) { service in apps || service in dbs || service in managed }
  }

  datatype Tally = Tally(destroyed: nat, failed: nat, reasons: nat)

  /** `branchRoots`, in the order they are removed in. */
  const ROOT_KINDS: seq<RootKind> := [Pg, Vol, Md]

  lemma EveryKindIsWalked(kind: RootKind)
    ensures exists i :: 0 <= i < |ROOT_KINDS| && ROOT_KINDS[i] == kind
  {
    assert ROOT_KINDS[0] == Pg && ROOT_KINDS[1] == Vol && ROOT_KINDS[2] == Md;
  }

  /** The summary every step of one demolition adds to, and every branch of a project delete shares. */
  class Counter {
    var destroyed: nat
    var failed: nat
    var reasons: nat

    constructor ()
      ensures Value() == Tally(0, 0, 0)
    {
      destroyed, failed, reasons := 0, 0, 0;
    }

    function Value(): Tally
      reads this
    {
      Tally(destroyed, failed, reasons)
    }

    /** Every counter only grows, and nothing gives a reason without counting a failure. */
    twostate predicate Grew()
      reads this
    {
      && destroyed >= old(destroyed) && failed >= old(failed) && reasons >= old(reasons)
      && reasons - old(reasons) <= failed - old(failed)
    }
  }

  function Since(now: Tally, mark: Tally): Tally
    requires now.destroyed >= mark.destroyed && now.failed >= mark.failed && now.reasons >= mark.reasons
  {
    Tally(now.destroyed - mark.destroyed, now.failed - mark.failed, now.reasons - mark.reasons)
  }

  function Plus(a: Tally, b: Tally): Tally {
    Tally(a.destroyed + b.destroyed, a.failed + b.failed, a.reasons + b.reasons)
  }

  function Total(slices: seq<Tally>): Tally {
    if slices == [] then Tally(0, 0, 0) else Plus(Total(slices[..|slices| - 1]), slices[|slices| - 1])
  }

  predicate AllClean(slices: seq<Tally>) {
    forall i :: 0 <= i < |slices| ==> slices[i].failed == 0
  }

  lemma SliceAdded(slices: seq<Tally>, t: Tally)
    ensures Total(slices + [t]) == Plus(Total(slices), t)
    ensures AllClean(slices + [t]) <==> AllClean(slices) && t.failed == 0
  {
    var after := slices + [t];
    assert after[..|slices|] == slices && after[|slices|] == t;
    assert forall i :: 0 <= i < |slices| ==> after[i] == slices[i];
  }

  function WithoutBranch(secrets: seq<Secret>, name: string): (r: seq<Secret>)
    ensures forall u :: u in r <==> u in secrets && u.branch != name
  {
    if secrets == [] then []
    else (if secrets[0].branch == name then [] else [secrets[0]]) + WithoutBranch(secrets[1..], name)
  }

  // ---- what a demolition may change, from one state of the box to another ----

  datatype World = World(containers: set<Container>, buckets: set<string>, networks: set<string>, roots: set<Root>,
    keys: set<Key>, domains: map<string, string>, secrets: seq<Secret>, branches: map<string, Branch>)

  /** Told field by field of the row: no container, bucket or network it names, and no directory of its
      ref whatever it holds. */
  ghost predicate NothingLeft(w: World, b: Branch) {
    && (forall c :: c in w.containers && c.ref == b.ref ==> c.service !in b.apps && c.service !in b.dbs && c.service !in b.managed)
    && (forall x :: x in b.buckets ==> x !in w.buckets)
    && b.network !in w.networks
    && (forall r :: r in w.roots ==> r.ref != b.ref)
  }

  /** The scheduler keys, custom domains and branch-scoped secrets of the branch are all gone. */
  ghost predicate Released(w: World, id: string, b: Branch) {
    && (forall k :: k in w.keys && k.branch == id ==> k.service !in b.apps && k.service !in b.dbs && k.service !in b.managed)
    && (forall h :: h in w.domains ==> w.domains[h] != id)
    && (forall u :: u in w.secrets ==> u.branch != b.name)
  }

  /** They are all still there. */
  ghost predicate ClaimsKept(w: World, w': World, id: string, b: Branch) {
    && (forall k: Key :: k.branch == id ==> (k in w'.keys <==> k in w.keys))
    && (forall h :: h in w.domains && w.domains[h] == id ==> h in w'.domains && w'.domains[h] == id)
    && (forall u: Secret :: u.branch == b.name ==> (u in w'.secrets <==> u in w.secrets))
  }

  /** Nothing grew, and nothing of any branch but this one changed. */
  ghost predicate OthersKept(w: World, w': World, id: string, b: Branch) {
    && w'.containers <= w.containers && (forall c :: c in w.containers && c.ref != b.ref ==> c in w'.containers)
    && w'.buckets <= w.buckets && (forall x :: x in w.buckets && x !in b.buckets ==> x in w'.buckets)
    && w'.networks <= w.networks && w.networks <= w'.networks + {b.network}
    && w'.roots <= w.roots && (forall r :: r in w.roots && r.ref != b.ref ==> r in w'.roots)
    && w'.keys <= w.keys && (forall k :: k in w.keys && k.branch != id ==> k in w'.keys)
    && (forall h :: h in w'.domains ==> h in w.domains && w'.domains[h] == w.domains[h])
    && (forall h :: h in w.domains && w.domains[h] != id ==> h in w'.domains)
    && (forall u :: u in w'.secrets ==> u in w.secrets)
    && (forall u :: u in w.secrets && u.branch != b.name ==> u in w'.secrets)
  }

  /** A data root of the branch is gone only if every container its row names is. */
  ghost predicate BytesAfterContainers(w: World, w': World, b: Branch) {
    (exists r :: r in w.roots && r.ref == b.ref && r !in w'.roots) ==>
      forall c :: c in w'.containers && c.ref == b.ref ==> c.service !in b.apps && c.service !in b.dbs && c.service !in b.managed
  }

  /** Where one branch stands after its demolition added `slice`: gone with all it had, or kept with
      all it claimed. */
  ghost predicate Decided(w: World, w': World, id: string, b: Branch, slice: Tally) {
    if slice.failed == 0 then id !in w'.branches && NothingLeft(w', b) && Released(w', id, b)
    else id in w'.branches && w'.branches[id] == b.(cleanupFailed := true) && ClaimsKept(w, w', id, b)
  }

  /** A decision stands while other branches are demolished. */
  lemma DecisionStands(w: World, now: World, next: World, id: string, b: Branch, slice: Tally, other: string, ob: Branch)
    requires Decided(w, now, id, b, slice) && OthersKept(now, next, other, ob)
    requires id != other && b.name != ob.name
    requires id in next.branches <==> id in now.branches
    requires id in now.branches ==> next.branches[id] == now.branches[id]
    ensures Decided(w, next, id, b, slice)
  {
  }

  /** A branch the demolition has not reached has lost nothing to the ones before it. */
  lemma ClaimsStand(w: World, now: World, next: World, id: string, b: Branch, other: string, ob: Branch)
    requires ClaimsKept(w, now, id, b) && OthersKept(now, next, other, ob)
    requires id != other && b.name != ob.name
    ensures ClaimsKept(w, next, id, b)
  {
  }

  ghost predicate Lists(order: seq<string>, branches: map<string, Branch>) {
    && (forall i, j :: 0 <= i < j < |order| ==> order[i] != order[j])
    && (forall id :: id in branches <==> id in order)
  }

  predicate Apart(branches: map<string, Branch>) {
    forall a, b :: a in branches && b in branches && a != b ==>
      branches[a].name != branches[b].name && branches[a].ref != branches[b].ref
  }

  lemma BytesStand(w: World, now: World, next: World, b: Branch, ob: Branch, other: string)
    requires BytesAfterContainers(w, now, b) && OthersKept(now, next, other, ob)
    requires b.ref != ob.ref || BytesAfterContainers(now, next, b)
    ensures BytesAfterContainers(w, next, b)
  {
    if r :| r in w.roots && r.ref == b.ref && r !in next.roots {
      if r in now.roots {
        assert b.ref == ob.ref;
      }
    }
  }

  ghost predicate StillWhole(w: World, now: World, id: string, b: Branch) {
    id in now.branches && now.branches[id] == b && ClaimsKept(w, now, id, b)
  }

  /** The row goes when the slice is clean and is marked when it is not; no other row changes. */
  predicate RowFollows(w: World, w': World, id: string, slice: Tally)
    requires id in w.branches
  {
    w'.branches == if slice.failed == 0 then w.branches - {id}
                   else w.branches[id := w.branches[id].(cleanupFailed := true)]
  }

  /** Halfway through a project delete: the branches reached are decided, each by its own slice, and
      the others have lost nothing. */
  ghost predicate Midway(w: World, now: World, order: seq<string>, slices: seq<Tally>)
    requires Lists(order, w.branches) && |slices| <= |order|
  {
    && (forall i :: 0 <= i < |slices| ==> Decided(w, now, order[i], w.branches[order[i]], slices[i]))
    && (forall i :: |slices| <= i < |order| ==> StillWhole(w, now, order[i], w.branches[order[i]]))
    && (forall i :: 0 <= i < |order| ==> BytesAfterContainers(w, now, w.branches[order[i]]))
    && now.branches.Keys <= w.branches.Keys
  }

  /** `next` is `now` with the next branch in the order demolished. */
  ghost predicate NextDone(now: World, next: World, id: string, b: Branch, slice: Tally) {
    && OthersKept(now, next, id, b) && BytesAfterContainers(now, next, b)
    && id in now.branches && Decided(now, next, id, b, slice) && RowFollows(now, next, id, slice)
  }

  lemma DecidedStand(w: World, now: World, next: World, order: seq<string>, slices: seq<Tally>, slice: Tally, i: nat)
    requires Lists(order, w.branches) && Apart(w.branches) && |slices| < |order| && Midway(w, now, order, slices)
    requires NextDone(now, next, order[|slices|], w.branches[order[|slices|]], slice) && i < |slices|
    ensures Decided(w, next, order[i], w.branches[order[i]], slices[i])
  {
    var n := |slices|;
    assert order[i] != order[n];
    DecisionStands(w, now, next, order[i], w.branches[order[i]], slices[i], order[n], w.branches[order[n]]);
  }

  lemma NextIsDecided(w: World, now: World, next: World, order: seq<string>, slices: seq<Tally>, slice: Tally)
    requires Lists(order, w.branches) && |slices| < |order| && Midway(w, now, order, slices)
    requires NextDone(now, next, order[|slices|], w.branches[order[|slices|]], slice)
    ensures Decided(w, next, order[|slices|], w.branches[order[|slices|]], slice)
  {
    assert StillWhole(w, now, order[|slices|], w.branches[order[|slices|]]);
  }

  lemma OthersStillWhole(w: World, now: World, next: World, order: seq<string>, slices: seq<Tally>, slice: Tally, i: nat)
    requires Lists(order, w.branches) && Apart(w.branches) && |slices| < i < |order| && Midway(w, now, order, slices)
    requires NextDone(now, next, order[|slices|], w.branches[order[|slices|]], slice)
    ensures StillWhole(w, next, order[i], w.branches[order[i]])
  {
    var n := |slices|;
    assert order[i] != order[n] && StillWhole(w, now, order[i], w.branches[order[i]]);
    ClaimsStand(w, now, next, order[i], w.branches[order[i]], order[n], w.branches[order[n]]);
  }

  lemma BytesStillSafe(w: World, now: World, next: World, order: seq<string>, slices: seq<Tally>, slice: Tally, i: nat)
    requires Lists(order, w.branches) && Apart(w.branches) && |slices| < |order| && i < |order| && Midway(w, now, order, slices)
    requires NextDone(now, next, order[|slices|], w.branches[order[|slices|]], slice)
    ensures BytesAfterContainers(w, next, w.branches[order[i]])
  {
    var n := |slices|;
    assert i != n ==> order[i] != order[n];
    BytesStand(w, now, next, w.branches[order[i]], w.branches[order[n]], order[n]);
  }

  lemma AllDecidedStand(w: World, now: World, next: World, order: seq<string>, slices: seq<Tally>, slice: Tally)
    requires Lists(order, w.branches) && Apart(w.branches) && |slices| < |order| && Midway(w, now, order, slices)
    requires NextDone(now, next, order[|slices|], w.branches[order[|slices|]], slice)
    ensures forall i :: 0 <= i < |slices| + 1 ==> Decided(w, next, order[i], w.branches[order[i]], (slices + [slice])[i])
  {
    forall i | 0 <= i < |slices| + 1 ensures Decided(w, next, order[i], w.branches[order[i]], (slices + [slice])[i]) {
      if i < |slices| { DecidedStand(w, now, next, order, slices, slice, i); } else { NextIsDecided(w, now, next, order, slices, slice); }
    }
  }

  lemma MidwayStep(w: World, now: World, next: World, order: seq<string>, slices: seq<Tally>, slice: Tally)
    requires Lists(order, w.branches) && Apart(w.branches) && |slices| < |order|
    requires Midway(w, now, order, slices)
    requires NextDone(now, next, order[|slices|], w.branches[order[|slices|]], slice)
    ensures Midway(w, next, order, slices + [slice])
  {
    AllDecidedStand(w, now, next, order, slices, slice);
    forall i | |slices| < i < |order| ensures StillWhole(w, next, order[i], w.branches[order[i]]) {
      OthersStillWhole(w, now, next, order, slices, slice, i);
    }
    forall i | 0 <= i < |order| ensures BytesAfterContainers(w, next, w.branches[order[i]]) {
      BytesStillSafe(w, now, next, order, slices, slice, i);
    }
  }

  /** When every branch has been reached, a row is left exactly if some slice was not clean. */
  lemma RowsLeft(w: World, now: World, order: seq<string>, slices: seq<Tally>)
    requires Lists(order, w.branches) && |slices| == |order| && Midway(w, now, order, slices)
    ensures now.branches == map[] <==> AllClean(slices)
  {
    if now.branches != map[] {
      var id :| id in now.branches;
      assert id in now.branches.Keys && id in w.branches;
      var i :| 0 <= i < |order| && order[i] == id;
      assert Decided(w, now, order[i], w.branches[order[i]], slices[i]);
      assert slices[i].failed != 0;
    }
    if !AllClean(slices) {
      var i :| 0 <= i < |slices| && slices[i].failed != 0;
      assert Decided(w, now, order[i], w.branches[order[i]], slices[i]);
      assert order[i] in now.branches;
    }
  }

  class Daemon {
    const faults: nat -> Fault
    var clock: nat
    var w: World
    var project: bool                 // the project row exists
    var projectCleanupFailed: bool

    constructor (faults: nat -> Fault, w: World)
      ensures this.faults == faults && this.w == w && project && !projectCleanupFailed
    {
      this.faults, this.clock, this.w := faults, 0, w;
      project, projectCleanupFailed := true, false;
    }

    /** Nothing fails from here on. */
    ghost predicate AllFine()
      reads this`clock
    {
      forall n :: n >= clock ==> faults(n) == Fine
    }

    method Tick() returns (f: Fault)
      modifies this`clock
      ensures f == faults(old(clock)) && clock == old(clock) + 1
      ensures old(AllFine()) ==> f == Fine && AllFine()
    {
      f := faults(clock);
      clock := clock + 1;
    }

    /** Docker's answer about one container; `Gone` only when it did answer. */
    method ContainerPresence(c: Container) returns (p: Presence)
      modifies this`clock
      ensures p == Gone ==> c !in w.containers
      ensures old(AllFine()) ==> AllFine() && (p == Gone <==> c !in w.containers)
    {
      var f := Tick();
      p := match f
        case Fine => if c in w.containers then Present else Gone
        case Remembered => Present
        case _ => Unknown;
    }

    /** An adapter's removal of some of a branch's containers. */
    method Remove(ref: string, services: set<string>) returns (ok: bool)
      modifies this`clock, this`w
      ensures w == old(w).(containers := w.containers) && w.containers <= old(w).containers
      ensures forall c :: c in old(w).containers && (c.ref != ref || c.service !in services) ==> c in w.containers
      ensures old(AllFine()) ==> AllFine() && forall s :: s in services ==> Container(ref, s) !in w.containers
    {
      var f := Tick();
      match f
      case Fine =>
        w := w.(containers := set c | c in w.containers && !(c.ref == ref && c.service in services));
        ok := true;
      case Partly(kept) =>
        w := w.(containers := set c | c in w.containers && !(c.ref == ref && c.service in services && c.service !in kept));
        ok := false;
      case _ => ok := false;
    }

    /** `removeContainer`: asks for the removal (`services` is what one adapter call takes), then
        proves it. `attempt` is false when an earlier call has already taken the whole set. */
    method RemoveContainer(t: Counter, c: Container, services: set<string>, attempt: bool, known: Presence) returns (gone: bool)
      modifies this`clock, this`w, t
      ensures w == old(w).(containers := w.containers) && w.containers <= old(w).containers
      ensures forall x :: x in old(w).containers && (x.ref != c.ref || x.service !in services) ==> x in w.containers
      ensures gone ==> c !in w.containers
      ensures t.failed == old(t.failed) + (if gone then 0 else 1)
      ensures t.reasons == old(t.reasons) + (if gone then 0 else 1)
      ensures t.destroyed == old(t.destroyed) + (if gone && known != Gone then 1 else 0)
      ensures old(AllFine()) ==> AllFine()
      ensures old(AllFine()) && ((attempt && c.service in services) || c !in old(w).containers) ==> gone
      ensures old(AllFine()) && attempt ==> forall s :: s in services ==> Container(c.ref, s) !in w.containers
    {
      if attempt {
        var ok := Remove(c.ref, services);
      }
      var after := ContainerPresence(c);
      if after == Gone {
        if known != Gone { t.destroyed := t.destroyed + 1; }
        return true;
      }
      t.failed := t.failed + 1;
      t.reasons := t.reasons + 1;
      gone := false;
    }

    /** One `docker ps -a` for the whole branch. */
    method Known(snapshotted: bool, snapshot: set<Container>, c: Container) returns (p: Presence)
      ensures p == if !snapshotted then Unknown else if c in snapshot then Present else Gone
    {
      p := if !snapshotted then Unknown else if c in snapshot then Present else Gone;
    }

    /** Proves a list of containers gone, one after another; `together` says one adapter call takes
        them all, the first time it is needed. */
    method RemoveAll(t: Counter, ref: string, services: seq<string>, together: bool, snapshotted: bool, snapshot: set<Container>)
      returns (survivors: bool)
      modifies this`clock, this`w, t
      ensures w == old(w).(containers := w.containers) && w.containers <= old(w).containers
      ensures forall c :: c in old(w).containers && (c.ref != ref || c.service !in services) ==> c in w.containers
      ensures t.Grew()
      ensures survivors <==> t.failed != old(t.failed)
      ensures !survivors ==> forall s :: s in services ==> Container(ref, s) !in w.containers
      ensures old(AllFine()) ==> AllFine() && !survivors
    {
      survivors := false;
      for i := 0 to |services|
        invariant old(AllFine()) ==> AllFine() && !survivors
        invariant old(AllFine()) && together && i > 0 ==> forall s :: s in services ==> Container(ref, s) !in w.containers
        invariant w == old(w).(containers := w.containers) && w.containers <= old(w).containers
        invariant forall c :: c in old(w).containers && (c.ref != ref || c.service !in services) ==> c in w.containers
        invariant t.Grew() && (survivors <==> t.failed != old(t.failed))
        invariant !survivors ==> forall s :: s in services[..i] ==> Container(ref, s) !in w.containers
      {
        var c := Container(ref, services[i]);
        var known := Known(snapshotted, snapshot, c);
        var taken := if together then set s | s in services else {services[i]};
        var gone := RemoveContainer(t, c, taken, !together || i == 0, known);
        if !gone { survivors := true; }
        assert services[..i + 1] == services[..i] + [services[i]];
      }
      assert services[..|services|] == services;
    }

    /** `count`: success is counted, and so is failure. */
    method Count(t: Counter, named: bool) returns (ok: bool)
      modifies this`clock, t
      ensures t.Grew() && (ok <==> t.failed == old(t.failed))
      ensures t.destroyed == old(t.destroyed) + (if ok then 1 else 0)
      ensures old(AllFine()) ==> ok && AllFine()
    {
      var f := Tick();
      ok := f == Fine;
      if ok {
        t.destroyed := t.destroyed + 1;
      } else {
        t.failed := t.failed + 1;
        if named { t.reasons := t.reasons + 1; }
      }
    }

    /** `countFailure`: only a failure is counted. */
    method CountFailure(t: Counter) returns (ok: bool)
      modifies this`clock, t
      ensures t.Grew() && (ok <==> t.failed == old(t.failed)) && t.destroyed == old(t.destroyed)
      ensures old(AllFine()) ==> ok && AllFine()
    {
      var f := Tick();
      ok := f == Fine;
      if !ok {
        t.failed := t.failed + 1;
        t.reasons := t.reasons + 1;
      }
    }

    /** Buckets and data roots carry no container, so a removal that did not throw is believed. */
    method RemoveBuckets(t: Counter, names: seq<string>)
      modifies this`clock, this`w, t
      ensures t.Grew() && w == old(w).(buckets := w.buckets) && w.buckets <= old(w).buckets
      ensures forall x :: x in old(w).buckets && x !in names ==> x in w.buckets
      ensures t.failed == old(t.failed) ==> forall x :: x in names ==> x !in w.buckets
      ensures old(AllFine()) ==> AllFine() && t.failed == old(t.failed)
    {
      for i := 0 to |names|
        invariant old(AllFine()) ==> AllFine() && t.failed == old(t.failed)
        invariant t.Grew() && w == old(w).(buckets := w.buckets) && w.buckets <= old(w).buckets
        invariant forall x :: x in old(w).buckets && x !in names ==> x in w.buckets
        invariant t.failed == old(t.failed) ==> forall k :: 0 <= k < i ==> names[k] !in w.buckets
      {
        var ok := Count(t, true);
        if ok { w := w.(buckets := w.buckets - {names[i]}); }
      }
    }

    method RemoveRoots(t: Counter, ref: string)
      modifies this`clock, this`w, t
      ensures t.Grew() && w == old(w).(roots := w.roots) && w.roots <= old(w).roots
      ensures forall r :: r in old(w).roots && r.ref != ref ==> r in w.roots
      ensures t.failed == old(t.failed) ==> forall r :: r in w.roots ==> r.ref != ref
      ensures old(AllFine()) ==> AllFine() && t.failed == old(t.failed)
    {
      for i := 0 to |ROOT_KINDS|
        invariant old(AllFine()) ==> AllFine() && t.failed == old(t.failed)
        invariant t.Grew() && w == old(w).(roots := w.roots) && w.roots <= old(w).roots
        invariant forall r :: r in old(w).roots && r.ref != ref ==> r in w.roots
        invariant t.failed == old(t.failed) ==> forall k :: 0 <= k < i ==> Root(ref, ROOT_KINDS[k]) !in w.roots
      {
        var ok := Count(t, true);
        if ok { w := w.(roots := w.roots - {Root(ref, ROOT_KINDS[i])}); }
      }
      forall r | t.failed == old(t.failed) && r in w.roots ensures r.ref != ref {
        EveryKindIsWalked(r.kind);
        var k :| 0 <= k < |ROOT_KINDS| && ROOT_KINDS[k] == r.kind;
        assert r == Root(r.ref, ROOT_KINDS[k]);
      }
    }

    /** Everything the branch's containers held is removed, or some of them are not proved gone and no
        byte is touched. */
    method TeardownProviders(b: Branch, t: Counter)
      modifies this`clock, this`w, t
      ensures t.Grew() && w == old(w).(containers := w.containers, buckets := w.buckets, networks := w.networks, roots := w.roots)
      ensures w.containers <= old(w).containers && forall c :: c in old(w).containers && c.ref != b.ref ==> c in w.containers
      ensures w.buckets <= old(w).buckets && forall x :: x in old(w).buckets && x !in b.buckets ==> x in w.buckets
      ensures w.networks <= old(w).networks && old(w).networks <= w.networks + {b.network}
      ensures w.roots <= old(w).roots && forall r :: r in old(w).roots && r.ref != b.ref ==> r in w.roots
      ensures w.roots != old(w).roots ==>
        forall c :: c in w.containers && c.ref == b.ref ==> c.service !in b.apps && c.service !in b.dbs && c.service !in b.managed
      ensures t.failed == old(t.failed) ==> NothingLeft(w, b)
      ensures old(AllFine()) ==> AllFine() && t.failed == old(t.failed)
    {
      var f := Tick();
      var snapshotted, snapshot := f == Fine, w.containers;
      var left := RemoveAll(t, b.ref, b.apps, true, snapshotted, snapshot);
      if b.apps == [] {
        var ok := Count(t, false);
      }
      var more := RemoveAll(t, b.ref, b.dbs, false, snapshotted, snapshot);
      left := left || more;
      RemoveBuckets(t, b.buckets);
      var detached := CountFailure(t);
      more := RemoveAll(t, b.ref, b.managed, false, snapshotted, snapshot);
      left := left || more;
      var unplugged := CountFailure(t);
      if unplugged { w := w.(networks := w.networks - {b.network}); }
      if !left {
        RemoveRoots(t, b.ref);
      }
    }

    /** `teardownBranch`: the claims go exactly when this branch's own slice of failures is empty. */
    method TeardownBranch(id: string, t: Counter)
      requires id in w.branches
      modifies this`clock, this`w, t
      ensures t.Grew() && w.branches == old(w).branches
      ensures OthersKept(old(w), w, id, w.branches[id]) && BytesAfterContainers(old(w), w, w.branches[id])
      ensures if t.failed == old(t.failed)
        then NothingLeft(w, w.branches[id]) && Released(w, id, w.branches[id])
        else ClaimsKept(old(w), w, id, w.branches[id])
      ensures old(AllFine()) ==> AllFine() && t.failed == old(t.failed)
    {
      var b := w.branches[id];
      var failedBefore := t.failed;
      TeardownProviders(b, t);
      if t.failed != failedBefore { return; }
      w := w.(keys := set k | k in w.keys && !(k.branch == id && b.Runs(k.service)));
      w := w.(domains := map h | h in w.domains && w.domains[h] != id :: w.domains[h]);
      w := w.(secrets := WithoutBranch(w.secrets, b.name));
    }

    /** The row follows the slice: it goes only when its demolition all went. */
    method DestroyNext(id: string, t: Counter) returns (slice: Tally)
      requires id in w.branches
      modifies this`clock, this`w, t
      ensures t.Grew() && t.Value() == Plus(old(t.Value()), slice)
      ensures OthersKept(old(w), w, id, old(w).branches[id]) && BytesAfterContainers(old(w), w, old(w).branches[id])
      ensures Decided(old(w), w, id, old(w).branches[id], slice) && RowFollows(old(w), w, id, slice)
      ensures old(AllFine()) ==> AllFine() && slice.failed == 0
    {
      var mark := t.Value();
      TeardownBranch(id, t);
      slice := Since(t.Value(), mark);
      if slice.failed == 0 {
        w := w.(branches := w.branches - {id});
      } else {
        w := w.(branches := w.branches[id := w.branches[id].(cleanupFailed := true)]);
      }
    }

    /** `destroyBranch`, under the branch's keys, with a counter of its own. */
    method DestroyBranch(id: string) returns (r: Tally)
      requires id in w.branches
      modifies this`clock, this`w
      ensures OthersKept(old(w), w, id, old(w).branches[id]) && BytesAfterContainers(old(w), w, old(w).branches[id])
      ensures Decided(old(w), w, id, old(w).branches[id], r) && RowFollows(old(w), w, id, r)
      ensures old(AllFine()) ==> r.failed == 0
    {
      var t := new Counter();
      r := DestroyNext(id, t);
    }

    /** `destroyProject`, under the project's key and every branch's: `order` lists the branches the
        state has now. Each branch is decided by its own slice of the shared counter, and the slices
        add up to what the caller is told. */
    method DestroyProject(order: seq<string>) returns (r: Tally, slices: seq<Tally>)
      requires Lists(order, w.branches) && Apart(w.branches) && project
      modifies this
      ensures |slices| == |order| && Total(slices) == r && Midway(old(w), w, order, slices)
      ensures project <==> w.branches != map[]
      ensures project ==> projectCleanupFailed
      ensures old(AllFine()) ==> !project && r.failed == 0
    {
      var t := new Counter();
      slices := [];
      var kept := false;
      ghost var start := w;
      while |slices| < |order|
        invariant |slices| <= |order| && Total(slices) == t.Value()
        invariant Midway(start, w, order, slices)
        invariant kept <==> !AllClean(slices)
        invariant old(AllFine()) ==> AllFine() && !kept && t.failed == 0
        modifies this`clock, this`w, t
      {
        ghost var now := w;
        var id := order[|slices|];
        assert StillWhole(start, now, id, start.branches[id]);
        var slice := DestroyNext(id, t);
        MidwayStep(start, now, w, order, slices, slice);
        SliceAdded(slices, slice);
        kept := kept || slice.failed != 0;
        slices := slices + [slice];
      }
      RowsLeft(start, w, order, slices);
      r := t.Value();
      if kept { projectCleanupFailed := true; } else { project := false; }
    }
  }
}
