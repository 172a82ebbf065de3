/**
 The approval circuit breaker: a gated action is allowed, denied, or let through once per grant.
 */
module Govern {
  import opened Options

  datatype Action =
    | SecretsRead | SecretsWrite | StorageRead | StorageWrite | StorageDelete | Deploy | ProjectDelete | BranchDelete
    | ServiceAdd | ServiceRemove | ServiceSetAccess | ServiceRename | ServiceUpgrade

  datatype Decision = Allow | Deny | Approve

  datatype Status = Pending | Granted | Denied | Consumed

  datatype Approval = Approval(id: string, project: string, action: Action, status: Status)

  datatype Scope = Scope(project: string, action: Action)

  datatype Doc = Doc(approvals: seq<Approval>, policies: map<Scope, Decision>)

  datatype Answer = Go | Stop | AskFirst(approval: string)

  /** Governance is opt-in: with no override every action is allowed. */
  function Policy(d: Doc, s: Scope): Decision {
    if s in d.policies then d.policies[s] else Allow
  }

  predicate Matches(a: Approval, s: Scope, status: Status) {
    a.project == s.project && a.action == s.action && a.status == status
  }

  /** The index of the first grant a gate would use, or the length when there is none. */
  function FirstGrant(approvals: seq<Approval>, s: Scope): (i: nat)
    ensures i <= |approvals| && (i < |approvals| ==> Matches(approvals[i], s, Granted))
    ensures forall j :: 0 <= j < i ==> !Matches(approvals[j], s, Granted)
  {
    if approvals == [] || Matches(approvals[0], s, Granted) then 0 else 1 + FirstGrant(approvals[1..], s)
  }

  function Find(approvals: seq<Approval>, project: string, id: string): (i: nat)
    ensures i <= |approvals| && (i < |approvals| ==> approvals[i].id == id && approvals[i].project == project)
    ensures forall j :: 0 <= j < i ==> !(approvals[j].id == id && approvals[j].project == project)
  {
    if approvals == [] || (approvals[0].id == id && approvals[0].project == project) then 0 else 1 + Find(approvals[1..], project, id)
  }

  class Governor {
    var approvals: seq<Approval>
    var policies: map<Scope, Decision>

    constructor ()
      ensures State() == Doc([], map[])
    {
      approvals, policies := [], map[];
    }

    function State(): Doc
      reads this
    {
      Doc(approvals, policies)
    }

    method SetPolicy(s: Scope, d: Decision)
      modifies this
      ensures State() == old(State()).(policies := old(policies)[s := d])
    {
      policies := policies[s := d];
    }

    /** `gate`: a grant is used up in the write that finds it; with none, one pending approval is asked
        for. */
    method Gate(s: Scope, id: string) returns (r: Answer)
      modifies this
      ensures (r, State()) == Gated(old(State()), s, id)
    {
      var decision := Policy(State(), s);
      if decision == Allow {
        return Go;
      }
      if decision == Deny {
        return Stop;
      }
      var i := 0;
      while i < |approvals| && !Matches(approvals[i], s, Granted)
        invariant 0 <= i <= |approvals| && State() == old(State())
        invariant forall j :: 0 <= j < i ==> !Matches(approvals[j], s, Granted)
      {
        i := i + 1;
      }
      if i < |approvals| {
        approvals := approvals[i := approvals[i].(status := Consumed)];
        return Go;
      }
      approvals := approvals + [Approval(id, s.project, s.action, Pending)];
      r := AskFirst(id);
    }

    /** `decide`: only a pending approval of this project, and only once. */
    method Decide(project: string, id: string, grant: bool, always: bool) returns (done: bool)
      modifies this
      ensures (done, State()) == Decided(old(State()), project, id, grant, always)
    {
      var i := 0;
      while i < |approvals| && !(approvals[i].id == id && approvals[i].project == project)
        invariant 0 <= i <= |approvals| && State() == old(State())
        invariant forall j :: 0 <= j < i ==> !(approvals[j].id == id && approvals[j].project == project)
      {
        i := i + 1;
      }
      if i == |approvals| || approvals[i].status != Pending {
        return false;
      }
      approvals := approvals[i := approvals[i].(status := if grant then Granted else Denied)];
      if grant && always {
        policies := policies[Scope(project, approvals[i].action) := Allow];
      }
      done := true;
    }
  }

  function Gated(d: Doc, s: Scope, id: string): (Answer, Doc) {
    match Policy(d, s)
    case Allow => (Go, d)
    case Deny => (Stop, d)
    case Approve =>
      var i := FirstGrant(d.approvals, s);
      if i < |d.approvals| then (Go, d.(approvals := d.approvals[i := d.approvals[i].(status := Consumed)]))
      else (AskFirst(id), d.(approvals := d.approvals + [Approval(id, s.project, s.action, Pending)]))
  }

  function Decided(d: Doc, project: string, id: string, grant: bool, always: bool): (bool, Doc) {
    var i := Find(d.approvals, project, id);
    if i == |d.approvals| || d.approvals[i].status != Pending then (false, d)
    else
      var a := d.approvals[i].(status := if grant then Granted else Denied);
      var policies := if grant && always then d.policies[Scope(project, a.action) := Allow] else d.policies;
      (true, Doc(d.approvals[i := a], policies))
  }

  // ---- whole runs ----

  datatype Event =
    | Gating(scope: Scope, id: string)
    | Deciding(project: string, id: string, grant: bool, always: bool)
    | Setting(scope: Scope, decision: Decision)

  /** The document, with what has happened so far: every grant issued, and every action that one let
      through, in order. */
  datatype Sys = Sys(doc: Doc, grants: seq<Scope>, admitted: seq<Approval>)

  /** A minted approval id is new. */
  predicate Possible(s: Sys, e: Event) {
    e.Gating? ==> forall i :: 0 <= i < |s.doc.approvals| ==> s.doc.approvals[i].id != e.id
  }

  function After(s: Sys, e: Event): Sys {
    match e
    case Setting(scope, decision) => s.(doc := s.doc.(policies := s.doc.policies[scope := decision]))
    case Gating(scope, id) =>
      var (r, doc) := Gated(s.doc, scope, id);
      var i := FirstGrant(s.doc.approvals, scope);
      var byGrant := Policy(s.doc, scope) == Approve && i < |s.doc.approvals|;
      Sys(doc, s.grants, if byGrant then s.admitted + [s.doc.approvals[i]] else s.admitted)
    case Deciding(project, id, grant, always) =>
      var (done, doc) := Decided(s.doc, project, id, grant, always);
      var i := Find(s.doc.approvals, project, id);
      Sys(doc, if done && grant then s.grants + [Scope(project, s.doc.approvals[i].action)] else s.grants, s.admitted)
  }

  function CountScope(scopes: seq<Scope>, s: Scope): nat {
    if scopes == [] then 0 else CountScope(scopes[..|scopes| - 1], s) + if scopes[|scopes| - 1] == s then 1 else 0
  }

  function CountAdmitted(log: seq<Approval>, s: Scope): nat {
    if log == [] then 0
    else CountAdmitted(log[..|log| - 1], s) + if Scope(log[|log| - 1].project, log[|log| - 1].action) == s then 1 else 0
  }

  function CountStatus(approvals: seq<Approval>, s: Scope, status: Status): nat {
    if approvals == [] then 0
    else CountStatus(approvals[..|approvals| - 1], s, status) + if Matches(approvals[|approvals| - 1], s, status) then 1 else 0
  }

  lemma {:induction false} CountAfterUpdate(approvals: seq<Approval>, i: nat, a: Approval, s: Scope, status: Status)
    requires i < |approvals|
    ensures CountStatus(approvals[i := a], s, status) + (if Matches(approvals[i], s, status) then 1 else 0)
         == CountStatus(approvals, s, status) + (if Matches(a, s, status) then 1 else 0)
  {
    var n := |approvals| - 1;
    if i == n {
      assert approvals[i := a][..n] == approvals[..n];
    } else {
      assert approvals[i := a][..n] == approvals[..n][i := a];
      CountAfterUpdate(approvals[..n], i, a, s, status);
    }
  }

  /** Grants issued are grants standing or used; actions let through are grants used; and no approval
      has let two through. */
  ghost predicate Conserved(s: Sys) {
    && (forall scope :: CountScope(s.grants, scope) ==
         CountStatus(s.doc.approvals, scope, Granted) + CountStatus(s.doc.approvals, scope, Consumed))
    && (forall scope :: CountAdmitted(s.admitted, scope) == CountStatus(s.doc.approvals, scope, Consumed))
    && (forall i, j :: 0 <= i < j < |s.doc.approvals| ==> s.doc.approvals[i].id != s.doc.approvals[j].id)
    && (forall k :: 0 <= k < |s.admitted| ==> UsedUp(s.doc.approvals, s.admitted[k]))
    && (forall k, l :: 0 <= k < l < |s.admitted| ==> s.admitted[k].id != s.admitted[l].id)
  }

  /** The approval an action went through on is there, and is consumed. */
  predicate UsedUp(approvals: seq<Approval>, a: Approval) {
    exists i :: 0 <= i < |approvals| && approvals[i] == a.(status := Consumed)
  }

  /** An approval in use stays used up whatever happens to the others. */
  lemma StaysUsedUp(approvals: seq<Approval>, approvals': seq<Approval>, a: Approval)
    requires UsedUp(approvals, a) && |approvals| <= |approvals'|
    requires forall i :: 0 <= i < |approvals| && approvals[i].status == Consumed ==> approvals'[i] == approvals[i]
    ensures UsedUp(approvals', a)
  {
    var x :| 0 <= x < |approvals| && approvals[x] == a.(status := Consumed);
    assert approvals'[x] == approvals[x];
  }

  lemma UseConserves(s: Sys, e: Event)
    requires Conserved(s) && e.Gating? && Policy(s.doc, e.scope) == Approve
    requires FirstGrant(s.doc.approvals, e.scope) < |s.doc.approvals|
    ensures Conserved(After(s, e))
  {
    var s', approvals, i := After(s, e), s.doc.approvals, FirstGrant(s.doc.approvals, e.scope);
    var used := approvals[i].(status := Consumed);
    forall scope, status ensures CountStatus(s'.doc.approvals, scope, status) + (if Matches(approvals[i], scope, status) then 1 else 0)
      == CountStatus(approvals, scope, status) + (if Matches(used, scope, status) then 1 else 0)
    {
      CountAfterUpdate(approvals, i, used, scope, status);
    }
    assert s'.admitted[..|s.admitted|] == s.admitted;
    forall k | 0 <= k < |s.admitted| ensures UsedUp(s'.doc.approvals, s.admitted[k]) && s.admitted[k].id != approvals[i].id {
      StaysUsedUp(approvals, s'.doc.approvals, s.admitted[k]);
    }
    assert s'.doc.approvals[i] == used && UsedUp(s'.doc.approvals, approvals[i]);
  }

  lemma CountOneMore(approvals: seq<Approval>, a: Approval, s: Scope, status: Status)
    ensures CountStatus(approvals + [a], s, status) == CountStatus(approvals, s, status) + if Matches(a, s, status) then 1 else 0
  {
    assert (approvals + [a])[..|approvals|] == approvals;
  }

  lemma AskConserves(s: Sys, e: Event)
    requires Conserved(s) && Possible(s, e) && e.Gating? && Policy(s.doc, e.scope) == Approve
    requires FirstGrant(s.doc.approvals, e.scope) == |s.doc.approvals|
    ensures Conserved(After(s, e))
  {
    var approvals, asked := s.doc.approvals, Approval(e.id, e.scope.project, e.scope.action, Pending);
    var more := approvals + [asked];
    assert After(s, e) == s.(doc := s.doc.(approvals := more));
    forall scope, status
      ensures CountStatus(more, scope, status) == CountStatus(approvals, scope, status) + if Matches(asked, scope, status) then 1 else 0 {
      CountOneMore(approvals, asked, scope, status);
    }
    forall k | 0 <= k < |s.admitted| ensures UsedUp(more, s.admitted[k]) {
      StaysUsedUp(approvals, more, s.admitted[k]);
    }
  }

  lemma GatingConserves(s: Sys, e: Event)
    requires Conserved(s) && Possible(s, e) && e.Gating?
    ensures Conserved(After(s, e))
  {
    if Policy(s.doc, e.scope) == Approve {
      if FirstGrant(s.doc.approvals, e.scope) < |s.doc.approvals| { UseConserves(s, e); } else { AskConserves(s, e); }
    } else {
      assert After(s, e) == s;
    }
  }

  lemma DecidingConserves(s: Sys, e: Event)
    requires Conserved(s) && e.Deciding?
    ensures Conserved(After(s, e))
  {
    var s', approvals, i := After(s, e), s.doc.approvals, Find(s.doc.approvals, e.project, e.id);
    if i < |approvals| && approvals[i].status == Pending {
      var decided := approvals[i].(status := if e.grant then Granted else Denied);
      forall scope, status ensures CountStatus(s'.doc.approvals, scope, status) + (if Matches(approvals[i], scope, status) then 1 else 0)
        == CountStatus(approvals, scope, status) + (if Matches(decided, scope, status) then 1 else 0)
      {
        CountAfterUpdate(approvals, i, decided, scope, status);
      }
      if e.grant { assert s'.grants[..|s.grants|] == s.grants; }
      forall k | 0 <= k < |s.admitted| ensures UsedUp(s'.doc.approvals, s.admitted[k]) {
        StaysUsedUp(approvals, s'.doc.approvals, s.admitted[k]);
      }
    }
  }

  ghost predicate IsRun(run: seq<Sys>, events: seq<Event>) {
    && |run| == |events| + 1
    && run[0].doc.approvals == [] && run[0].grants == [] && run[0].admitted == []
    && forall i :: 0 <= i < |events| ==> Possible(run[i], events[i]) && run[i + 1] == After(run[i], events[i])
  }

  lemma {:induction false} RunsConserve(run: seq<Sys>, events: seq<Event>, i: nat)
    requires IsRun(run, events) && i < |run|
    ensures Conserved(run[i])
  {
    if i > 0 {
      RunsConserve(run, events, i - 1);
      match events[i - 1]
      case Gating(_, _) => GatingConserves(run[i - 1], events[i - 1]);
      case Deciding(_, _, _, _) => DecidingConserves(run[i - 1], events[i - 1]);
      case Setting(_, _) =>
    }
  }

  /** Over any run: of each project and action, no more went through by grant than was granted, each on
      an approval of its own. */
  lemma GrantsAreOneShot(run: seq<Sys>, events: seq<Event>, i: nat, scope: Scope)
    requires IsRun(run, events) && i < |run|
    ensures CountAdmitted(run[i].admitted, scope) + CountStatus(run[i].doc.approvals, scope, Granted) == CountScope(run[i].grants, scope)
    ensures forall k, l :: 0 <= k < l < |run[i].admitted| ==> run[i].admitted[k].id != run[i].admitted[l].id
  {
    RunsConserve(run, events, i);
  }

  /** The only ways an approval's status moves. */
  predicate Follows(before: Status, after: Status) {
    before == after || (before == Pending && after != Pending) || (before == Granted && after == Consumed)
  }

  /** In one event. */
  predicate FollowsAtOnce(before: Status, after: Status) {
    || before == after
    || (before == Pending && (after == Granted || after == Denied))
    || (before == Granted && after == Consumed)
  }

  lemma OneEventMovesOn(s: Sys, e: Event, k: nat)
    requires k < |s.doc.approvals|
    ensures k < |After(s, e).doc.approvals| && FollowsAtOnce(s.doc.approvals[k].status, After(s, e).doc.approvals[k].status)
  {
  }

  /** Approvals are never dropped or changed but in status, which only moves on: pending to granted to
      consumed, or pending to denied. */
  lemma {:induction false} StatusMovesOn(run: seq<Sys>, events: seq<Event>, i: nat, j: nat, k: nat)
    requires IsRun(run, events) && i <= j < |run| && k < |run[i].doc.approvals|
    ensures k < |run[j].doc.approvals|
    ensures var a, b := run[i].doc.approvals[k], run[j].doc.approvals[k];
      a.id == b.id && a.project == b.project && a.action == b.action && Follows(a.status, b.status)
    decreases j
  {
    if i < j {
      StatusMovesOn(run, events, i, j - 1, k);
      assert run[j] == After(run[j - 1], events[j - 1]);
    }
  }

  /** What a policy says, a gate does: an allowed action goes, a denied one does not, and neither touches
      an approval; under approval nothing goes without a grant. */
  lemma GateObeysPolicy(d: Doc, s: Scope, id: string)
    ensures Policy(d, s) == Allow ==> Gated(d, s, id) == (Go, d)
    ensures Policy(d, s) == Deny ==> Gated(d, s, id) == (Stop, d)
    ensures Policy(d, s) == Approve ==> (Gated(d, s, id).0 == Go <==> CountStatus(d.approvals, s, Granted) > 0)
  {
    NoGrantsIff(d.approvals, s);
  }

  lemma {:induction false} NoGrantsIff(approvals: seq<Approval>, s: Scope)
    ensures CountStatus(approvals, s, Granted) > 0 <==> exists i :: 0 <= i < |approvals| && Matches(approvals[i], s, Granted)
  {
    if approvals != [] {
      var n := |approvals| - 1;
      NoGrantsIff(approvals[..n], s);
      if i :| 0 <= i < |approvals| && Matches(approvals[i], s, Granted) {
        assert i < n ==> approvals[..n][i] == approvals[i];
      }
    }
  }

  /** Where no policy was set an action is allowed: governance is opt-in. */
  lemma UnsetIsAllowed(d: Doc, s: Scope, id: string)
    requires s !in d.policies
    ensures Gated(d, s, id) == (Go, d)
  {
    GateObeysPolicy(d, s, id);
  }

  /** Under approval a gate uses up one grant of its project and action, or asks for one new approval of
      them, which is pending; no policy and no other approval moves. */
  lemma GateUsesOrAsks(d: Doc, s: Scope, id: string)
    requires s in d.policies && d.policies[s] == Approve
    ensures Gated(d, s, id).1.policies == d.policies && Gated(d, s, id).0 != Stop
    ensures Gated(d, s, id).0 == Go ==>
      && |Gated(d, s, id).1.approvals| == |d.approvals|
      && exists i :: 0 <= i < |d.approvals| && Uses(d.approvals, Gated(d, s, id).1.approvals, s, i)
    ensures Gated(d, s, id).0.AskFirst? ==>
      && Gated(d, s, id).0.approval == id && (forall i :: 0 <= i < |d.approvals| ==> !Matches(d.approvals[i], s, Granted))
      && Gated(d, s, id).1.approvals == d.approvals + [Approval(id, s.project, s.action, Pending)]
  {
    var i := FirstGrant(d.approvals, s);
    if i < |d.approvals| { assert Uses(d.approvals, Gated(d, s, id).1.approvals, s, i); }
  }

  predicate Uses(before: seq<Approval>, after: seq<Approval>, s: Scope, i: nat)
    requires i < |before| == |after|
  {
    && before[i].status == Granted && before[i].project == s.project && before[i].action == s.action
    && after[i] == Approval(before[i].id, s.project, s.action, Consumed)
    && forall j :: 0 <= j < |before| && j != i ==> after[j] == before[j]
  }

  /** A verdict falls on the approval of that id and project, if it is pending: granted or denied as said.
      Only a grant that is to hold always moves a policy, that of its own project and action, to allow. */
  lemma DecisionTakes(d: Doc, project: string, id: string, grant: bool, always: bool, i: nat)
    requires i < |d.approvals| && d.approvals[i].id == id && d.approvals[i].project == project
    requires forall j :: 0 <= j < |d.approvals| && j != i ==> d.approvals[j].id != id
    ensures var (done, d') := Decided(d, project, id, grant, always);
      && (done <==> d.approvals[i].status == Pending)
      && |d'.approvals| == |d.approvals| && (forall j :: 0 <= j < |d.approvals| && j != i ==> d'.approvals[j] == d.approvals[j])
      && (done ==> d'.approvals[i].status == if grant then Granted else Denied)
      && (!done ==> d' == d)
      && forall s :: Policy(d', s) == if done && grant && always && s == Scope(project, d.approvals[i].action) then Allow else Policy(d, s)
  {
    assert Find(d.approvals, project, id) == i;
  }

  /** Nothing is decided for another project, or under an id nobody asked with. */
  lemma NothingToDecide(d: Doc, project: string, id: string, grant: bool, always: bool)
    requires forall j :: 0 <= j < |d.approvals| ==> d.approvals[j].id != id || d.approvals[j].project != project
    ensures Decided(d, project, id, grant, always) == (false, d)
  {
    var i := Find(d.approvals, project, id);
  }
}
