/**
 The bounded re-drive of a key set: an operation over a whole branch, a whole project or every carrier
 of a service computes its keys before it holds any of them, so it checks them again once it does.

 First the loop itself, whatever the state looks like each time the lock is granted. Then what the
 check buys over every interleaving: from the moment it passes until the body ends, the acquisition
 covers every key the live rows call for, although other operations add and remove rows and services
 throughout, and services may be removed from under a rename.
 */
module Redrive {
  import opened Options
  import opened OpLock
  import LockSafety
  import opened ServiceKeys

  const CREATE_LOCK_ROUNDS := 3

  /** What the state calls for when a round is granted; `Gone` is a row that no longer exists. */
  datatype Need = Gone | Calls(keys: set<Key>)

  datatype Outcome = NotFound | Ran | CouldNotSettle

  /** Round `i` was released with nothing done because it was short, and the next took the union. */
  predicate Abandoned(rounds: seq<set<Key>>, needs: nat -> Need, i: nat)
    requires i < |rounds|
  {
    && needs(i).Calls? && !(needs(i).keys <= rounds[i])
    && (i + 1 < |rounds| ==> rounds[i + 1] == rounds[i] + needs(i).keys)
  }

  /** One acquisition per round, and the body in at most one: the last, and only over a set that
      covers what the live state then calls for. */
  method Drive(first: set<Key>, needs: nat -> Need) returns (out: Outcome, rounds: seq<set<Key>>, bodies: nat)
    ensures 1 <= |rounds| <= CREATE_LOCK_ROUNDS && rounds[0] == first
    ensures forall i :: 0 <= i < |rounds| - 1 ==> Abandoned(rounds, needs, i)
    ensures bodies == if out == Ran then 1 else 0
    ensures var last := |rounds| - 1;
      match out
      case NotFound => needs(last).Gone?
      case Ran => needs(last).Calls? && needs(last).keys <= rounds[last]
      case CouldNotSettle => |rounds| == CREATE_LOCK_ROUNDS && Abandoned(rounds, needs, last)
  {
    var keys := first;
    var round := 1;
    rounds, bodies := [], 0;
    while true
      invariant 1 <= round <= CREATE_LOCK_ROUNDS && |rounds| == round - 1 && bodies == 0
      invariant if rounds == [] then keys == first else rounds[0] == first
      invariant forall i :: 0 <= i < |rounds| ==> Abandoned(rounds, needs, i)
      invariant rounds != [] ==> needs(|rounds| - 1).Calls? && keys == rounds[|rounds| - 1] + needs(|rounds| - 1).keys
      decreases CREATE_LOCK_ROUNDS - round
    {
      ghost var before := rounds;
      rounds := rounds + [keys];
      assert forall i :: 0 <= i < |before| ==> rounds[i] == before[i] && Abandoned(before, needs, i);
      var need := needs(round - 1);
      if need.Gone? {
        return NotFound, rounds, bodies;
      }
      if need.keys <= keys {
        bodies := bodies + 1;
        return Ran, rounds, bodies;
      }
      if round >= CREATE_LOCK_ROUNDS {
        return CouldNotSettle, rounds, bodies;
      }
      keys := keys + need.keys;
      round := round + 1;
    }
  }

  /** Every abandoned round grows the set, strictly, and loses nothing it had. */
  lemma {:induction false} RoundsGrow(rounds: seq<set<Key>>, needs: nat -> Need, i: nat, j: nat)
    requires i < j < |rounds|
    requires forall x :: i <= x < |rounds| - 1 ==> Abandoned(rounds, needs, x)
    ensures rounds[i] < rounds[j] && needs(i).Calls? && needs(i).keys <= rounds[j]
    decreases j
  {
    assert Abandoned(rounds, needs, j - 1);
    if i < j - 1 {
      RoundsGrow(rounds, needs, i, j - 1);
    }
  }

  // ---- what the check buys ----

  datatype Row = Row(project: string, services: set<string>)

  type Rows = map<string, Row>

  /** What an operation is over: a branch delete, a project delete, a rename or volume removal of one
      service on every branch, a create of `fork` from `source`. */
  datatype Scope =
    | OneBranch(branch: string)
    | WholeProject(project: string)
    | Carriers(project: string, service: string)
    | Fork(project: string, source: string, fork: string)

  datatype Op = Round(scope: Scope) | OtherOp

  datatype Pc = Unchecked | Body | Short

  datatype Sys = Sys(lock: LockState, ops: seq<Op>, pcs: seq<Pc>, rows: Rows)

  function BranchesOf(rows: Rows, p: string): set<string> {
    set b | b in rows && rows[b].project == p
  }

  function ServicesOf(rows: Rows, b: string): set<string> {
    if b in rows then rows[b].services else {}
  }

  function KeysOfBranch(rows: Rows, b: string): set<Key> {
    {BranchKey(b)} + set s | s in ServicesOf(rows, b) :: ServiceKey(b, s)
  }

  /** The keys the rows call for now. */
  function Keys(rows: Rows, scope: Scope): set<Key> {
    match scope
    case OneBranch(b) => KeysOfBranch(rows, b)
    case WholeProject(p) => {ProjectKey(p)} + set b, k | b in BranchesOf(rows, p) && k in KeysOfBranch(rows, b) :: k
    case Carriers(p, service) =>
      (set b | b in BranchesOf(rows, p) :: BranchKey(b)) + set b | b in BranchesOf(rows, p) :: ServiceKey(b, service)
    case Fork(p, source, fork) =>
      {ProjectKey(p)} + KeysOfBranch(rows, source) + {BranchKey(fork)} + set s | s in ServicesOf(rows, source) :: ServiceKey(fork, s)
  }

  /** `Grow` is a service add, a deploy, or a create filling in its clone; `Shrink` a service removal;
      `Retitle` the row write of a rename. */
  datatype Action =
    | Check
    | Grow(branch: string, service: string)
    | Shrink(branch: string, service: string)
    | Retitle(to: string)
    | AddFork(services: set<string>)
    | AddFirst(project: string, branch: string)
    | DropRow(branch: string)

  datatype Move = Locking(step: LockSafety.Step, op: Op) | Act(t: nat, action: Action)

  predicate Shaped(s: Sys) {
    |s.ops| == |s.pcs| == |s.lock.tickets|
  }

  /** The rows an operation was resolved against are there. A project that has a service has its
      default branch, which cannot be deleted alone. */
  predicate Found(rows: Rows, scope: Scope) {
    match scope
    case OneBranch(b) => b in rows
    case WholeProject(_) => true
    case Carriers(p, _) => BranchesOf(rows, p) != {}
    case Fork(p, source, fork) => source in rows && rows[source].project == p && fork !in rows
  }

  predicate Holds(s: Sys, t: nat, k: Key)
    requires Shaped(s)
  {
    LockSafety.Runs(s.lock, t) && k in s.lock.tickets[t].need
  }

  predicate InBody(s: Sys, t: nat)
    requires Shaped(s)
  {
    LockSafety.Runs(s.lock, t) && s.ops[t].Round? && s.pcs[t] == Body
  }

  /** Whoever adds to a branch's services holds that branch's key, but a removal holds the key of its one
      service and no more. Whoever adds a branch holds its project's key, and a clone's creator its
      source's too; only a settled demolition, or the unwinding of a create, drops a row. */
  predicate MayAct(s: Sys, t: nat, action: Action)
    requires Shaped(s)
  {
    && LockSafety.Runs(s.lock, t)
    && match action
       case Check => s.ops[t].Round? && s.pcs[t] == Unchecked
       case Grow(b, service) => b in s.rows && Holds(s, t, BranchKey(b)) && (s.ops[t].OtherOp? || FillsIn(s, t, b, service))
       case Shrink(b, service) => b in s.rows && Holds(s, t, ServiceKey(b, service)) && s.ops[t].OtherOp?
       case Retitle(to) => InBody(s, t) && s.ops[t].scope.Carriers? && Unused(s.rows, s.ops[t].scope.project, to)
       case AddFork(services) =>
         && InBody(s, t) && s.ops[t].scope.Fork? && s.ops[t].scope.fork !in s.rows
         && services <= ServicesOf(s.rows, s.ops[t].scope.source)
       case AddFirst(p, b) =>
         && s.ops[t].OtherOp? && Holds(s, t, ProjectKey(p)) && BranchesOf(s.rows, p) == {}
         && b !in s.rows && Unminted(s.ops, b)
       case DropRow(b) => InBody(s, t) && b in s.rows && Demolishes(s.rows, s.ops[t].scope, b)
  }

  /** A create gives its clone what the source has, a service at a time. */
  predicate FillsIn(s: Sys, t: nat, b: string, service: string)
    requires Shaped(s) && t < |s.ops|
  {
    && InBody(s, t) && s.ops[t].scope.Fork? && s.ops[t].scope.fork == b
    && service in ServicesOf(s.rows, s.ops[t].scope.source)
  }

  /** No branch of the project has the service a rename is to. */
  predicate Unused(rows: Rows, p: string, service: string) {
    forall b :: b in BranchesOf(rows, p) ==> service !in rows[b].services
  }

  /** Branch ids are random: a new project's branch has nobody's id. */
  predicate Unminted(ops: seq<Op>, b: string) {
    forall u :: 0 <= u < |ops| && ops[u].Round? && ops[u].scope.Fork? ==> ops[u].scope.fork != b
  }

  function Retitled(rows: Rows, p: string, from: string, to: string): Rows {
    map b | b in rows ::
      if rows[b].project == p && from in rows[b].services then rows[b].(services := rows[b].services - {from} + {to}) else rows[b]
  }

  predicate Demolishes(rows: Rows, scope: Scope, b: string)
    requires b in rows
  {
    match scope
    case OneBranch(x) => b == x
    case WholeProject(p) => rows[b].project == p
    case Carriers(_, _) => false
    case Fork(_, _, fork) => b == fork
  }

  function Acted(s: Sys, t: nat, action: Action): Sys
    requires Shaped(s) && MayAct(s, t, action)
  {
    match action
    case Check =>
      var ok := Found(s.rows, s.ops[t].scope) && Keys(s.rows, s.ops[t].scope) <= s.lock.tickets[t].need;
      s.(pcs := s.pcs[t := if ok then Body else Short])
    case Grow(b, service) => s.(rows := s.rows[b := s.rows[b].(services := s.rows[b].services + {service})])
    case Shrink(b, service) => s.(rows := s.rows[b := s.rows[b].(services := s.rows[b].services - {service})])
    case Retitle(to) => s.(rows := Retitled(s.rows, s.ops[t].scope.project, s.ops[t].scope.service, to))
    case AddFork(services) =>
      var scope := s.ops[t].scope;
      s.(rows := s.rows[scope.fork := Row(scope.project, services)])
    case AddFirst(p, b) => s.(rows := s.rows[b := Row(p, {})])
    case DropRow(b) => s.(rows := s.rows - {b})
  }

  ghost predicate MayLock(s: Sys, step: LockSafety.Step, op: Op)
    requires Shaped(s)
  {
    LockSafety.Enabled(s.lock, step) && (step.Take? && step.parent.Some? ==> op.OtherOp?)
  }

  ghost function Locked(s: Sys, step: LockSafety.Step, op: Op): Sys
    requires Shaped(s) && MayLock(s, step, op)
  {
    var lock := LockSafety.Apply(s.lock, step);
    if step.Take? then s.(lock := lock, ops := s.ops + [op], pcs := s.pcs + [Unchecked]) else s.(lock := lock)
  }

  ghost predicate Enabled(s: Sys, m: Move)
    requires Shaped(s)
  {
    match m
    case Locking(step, op) => MayLock(s, step, op)
    case Act(t, action) => MayAct(s, t, action)
  }

  ghost function Apply(s: Sys, m: Move): Sys
    requires Shaped(s) && Enabled(s, m)
  {
    match m
    case Locking(step, op) => Locked(s, step, op)
    case Act(t, action) => Acted(s, t, action)
  }

  // ---- the invariant ----

  predicate Anchored(rows: Rows, scope: Scope) {
    match scope
    case Carriers(p, _) => BranchesOf(rows, p) != {}
    case Fork(p, source, fork) =>
      && source in rows && rows[source].project == p && source != fork
      && (fork in rows ==> rows[fork].project == p && rows[fork].services <= rows[source].services)
    case _ => true
  }

  /** The rows a body is over. */
  predicate Reaches(rows: Rows, scope: Scope, b: string) {
    match scope
    case OneBranch(x) => b == x
    case WholeProject(p) => b in BranchesOf(rows, p)
    case Carriers(p, _) => b in BranchesOf(rows, p)
    case Fork(_, source, fork) => b == source || b == fork
  }

  predicate Covered(s: Sys, t: nat)
    requires Shaped(s) && t < |s.ops|
  {
    InBody(s, t) ==> Anchored(s.rows, s.ops[t].scope) && Keys(s.rows, s.ops[t].scope) <= s.lock.tickets[t].need
  }

  ghost predicate Inv(s: Sys) {
    && Shaped(s) && LockSafety.Inv(s.lock)
    && (forall t: nat :: t < |s.ops| && s.lock.tickets[t].phase == Waiting ==> s.pcs[t] == Unchecked)
    && forall t: nat :: t < |s.ops| ==> Covered(s, t)
  }

  lemma HeldOnce(s: Sys, t: nat, u: nat, k: Key)
    requires Inv(s) && Holds(s, t, k) && Holds(s, u, k)
    ensures t == u
  {
    if t != u {
      LockSafety.MutualExclusion(s.lock, t, u);
    }
  }

  /** Rows that keep their services keep their keys. */
  lemma SameKeys(rows: Rows, rows': Rows, b: string)
    requires ServicesOf(rows', b) == ServicesOf(rows, b)
    ensures KeysOfBranch(rows', b) == KeysOfBranch(rows, b)
  {
  }

  lemma ReachedIsKeyed(rows: Rows, scope: Scope, b: string)
    requires Reaches(rows, scope, b)
    ensures BranchKey(b) in Keys(rows, scope)
  {
    assert BranchKey(b) in KeysOfBranch(rows, b);
  }

  lemma ReachedServiceIsKeyed(rows: Rows, scope: Scope, b: string, service: string)
    requires Anchored(rows, scope) && Reaches(rows, scope, b) && !scope.Carriers?
    requires service in ServicesOf(rows, b)
    ensures ServiceKey(b, service) in Keys(rows, scope)
  {
    assert ServiceKey(b, service) in KeysOfBranch(rows, b);
  }

  /** Two bodies are never over one row, and nobody else can add to a row one is over. */
  lemma ReachedIsMine(s: Sys, t: nat, u: nat, b: string)
    requires Inv(s) && InBody(s, u) && t != u && Holds(s, t, BranchKey(b))
    ensures !Reaches(s.rows, s.ops[u].scope, b)
  {
    assert Covered(s, u);
    if Reaches(s.rows, s.ops[u].scope, b) {
      ReachedIsKeyed(s.rows, s.ops[u].scope, b);
      HeldOnce(s, t, u, BranchKey(b));
    }
  }

  /** Changes to rows a scope does not reach leave it as it was. */
  lemma ElsewhereIsSame(rows: Rows, rows': Rows, scope: Scope)
    requires forall x :: x in rows' ==> x in rows && rows'[x].project == rows[x].project
    requires forall x :: x in rows && Reaches(rows, scope, x) ==> x in rows' && rows'[x] == rows[x]
    requires Anchored(rows, scope)
    ensures Keys(rows', scope) == Keys(rows, scope) && Anchored(rows', scope)
  {
    match scope
    case OneBranch(x) => SameKeys(rows, rows', x);
    case Fork(_, source, _) => SameKeys(rows, rows', source);
    case WholeProject(p) =>
      assert BranchesOf(rows', p) == BranchesOf(rows, p);
      forall x | x in BranchesOf(rows, p) ensures KeysOfBranch(rows', x) == KeysOfBranch(rows, x) { SameKeys(rows, rows', x); }
      assert Keys(rows', scope) == Keys(rows, scope);
    case Carriers(p, _) =>
      assert BranchesOf(rows', p) == BranchesOf(rows, p);
  }

  /** A new row leaves a scope that does not reach it as it was. */
  lemma AddedIsSame(rows: Rows, b: string, row: Row, scope: Scope)
    requires b !in rows && Anchored(rows, scope)
    requires scope.OneBranch? ==> scope.branch != b || row.services == {}
    requires scope.WholeProject? || scope.Carriers? ==> scope.project != row.project
    requires scope.Fork? ==> scope.fork != b
    ensures Keys(rows[b := row], scope) == Keys(rows, scope) && Anchored(rows[b := row], scope)
  {
    var rows' := rows[b := row];
    match scope
    case OneBranch(x) => SameKeys(rows, rows', x);
    case Fork(_, source, _) => SameKeys(rows, rows', source);
    case WholeProject(p) =>
      assert BranchesOf(rows', p) == BranchesOf(rows, p);
      forall x | x in BranchesOf(rows, p) ensures KeysOfBranch(rows', x) == KeysOfBranch(rows, x) { SameKeys(rows, rows', x); }
      assert Keys(rows', scope) == Keys(rows, scope);
    case Carriers(p, _) => assert BranchesOf(rows', p) == BranchesOf(rows, p);
  }

  lemma DemolisherHolds(s: Sys, t: nat, b: string)
    requires Inv(s) && MayAct(s, t, DropRow(b))
    ensures Holds(s, t, BranchKey(b))
  {
    assert Covered(s, t);
    ReachedIsKeyed(s.rows, s.ops[t].scope, b);
  }

  lemma RenamerHolds(s: Sys, t: nat, to: string, b: string)
    requires Inv(s) && MayAct(s, t, Retitle(to)) && b in BranchesOf(s.rows, s.ops[t].scope.project)
    ensures Holds(s, t, BranchKey(b))
  {
    assert Covered(s, t);
    ReachedIsKeyed(s.rows, s.ops[t].scope, b);
  }

  lemma ForkIsElsewhere(s: Sys, t: nat, services: set<string>, u: nat)
    requires Inv(s) && MayAct(s, t, AddFork(services)) && t != u && InBody(s, u)
    ensures var scope := s.ops[u].scope;
      && (scope.OneBranch? ==> scope.branch != s.ops[t].scope.fork)
      && (scope.Fork? ==> scope.fork != s.ops[t].scope.fork)
      && (scope.WholeProject? || scope.Carriers? ==> scope.project != s.ops[t].scope.project)
  {
    var scope, mine := s.ops[u].scope, s.ops[t].scope;
    assert Covered(s, u) && Covered(s, t);
    ReachedIsKeyed(s.rows, mine, mine.fork);
    ReachedIsKeyed(s.rows, mine, mine.source);
    ReachedIsMine(s, t, u, mine.fork);
    ReachedIsMine(s, t, u, mine.source);
  }

  lemma FirstIsElsewhere(s: Sys, t: nat, p: string, b: string, u: nat)
    requires Inv(s) && MayAct(s, t, AddFirst(p, b)) && t != u && InBody(s, u)
    ensures s.ops[u].scope.WholeProject? || s.ops[u].scope.Carriers? ==> s.ops[u].scope.project != p
  {
    assert Covered(s, u);
    if s.ops[u].scope == WholeProject(p) {
      HeldOnce(s, t, u, ProjectKey(p));
    }
  }

  /** A removal holds one service's key, and can take from a row a body is over only a service the body
      is not over: another than the renamed one, under a rename. */
  lemma RemovalMisses(s: Sys, t: nat, b: string, service: string, u: nat)
    requires Inv(s) && MayAct(s, t, Shrink(b, service)) && t != u && InBody(s, u)
    requires Reaches(s.rows, s.ops[u].scope, b) && service in s.rows[b].services
    ensures s.ops[u].scope.Carriers? && ServiceKey(b, service) !in Keys(s.rows, s.ops[u].scope)
  {
    var scope := s.ops[u].scope;
    assert Covered(s, u);
    if !scope.Carriers? { ReachedServiceIsKeyed(s.rows, scope, b, service); }
    if ServiceKey(b, service) in Keys(s.rows, scope) { HeldOnce(s, t, u, ServiceKey(b, service)); }
  }

  lemma RemovalLeavesScope(s: Sys, t: nat, b: string, service: string, u: nat)
    requires Inv(s) && MayAct(s, t, Shrink(b, service)) && t != u && InBody(s, u)
    ensures Anchored(Acted(s, t, Shrink(b, service)).rows, s.ops[u].scope)
    ensures Keys(Acted(s, t, Shrink(b, service)).rows, s.ops[u].scope) == Keys(s.rows, s.ops[u].scope)
  {
    var scope, rows, rows' := s.ops[u].scope, s.rows, Acted(s, t, Shrink(b, service)).rows;
    assert Covered(s, u);
    if service !in rows[b].services {
      assert rows[b].services - {service} == rows[b].services;
      assert rows' == rows;
    } else {
      if Reaches(rows, scope, b) { RemovalMisses(s, t, b, service, u); }
      if scope.Carriers? {
        assert BranchesOf(rows', scope.project) == BranchesOf(rows, scope.project);
      } else {
        ElsewhereIsSame(rows, rows', scope);
      }
    }
  }

  /** The keys a body's scope calls for are left alone by every action of another acquisition. */
  lemma OthersLeaveScope(s: Sys, t: nat, action: Action, u: nat)
    requires Inv(s) && MayAct(s, t, action) && t != u && InBody(s, u)
    ensures Anchored(Acted(s, t, action).rows, s.ops[u].scope)
    ensures Keys(Acted(s, t, action).rows, s.ops[u].scope) == Keys(s.rows, s.ops[u].scope)
  {
    var scope, rows, rows' := s.ops[u].scope, s.rows, Acted(s, t, action).rows;
    assert Covered(s, u);
    match action
    case Check =>
    case Grow(b, _) =>
      ReachedIsMine(s, t, u, b);
      ElsewhereIsSame(rows, rows', scope);
    case Shrink(b, service) =>
      RemovalLeavesScope(s, t, b, service, u);
    case Retitle(to) =>
      forall b | b in BranchesOf(rows, s.ops[t].scope.project) ensures !Reaches(rows, scope, b) {
        RenamerHolds(s, t, to, b);
        ReachedIsMine(s, t, u, b);
      }
      ElsewhereIsSame(rows, rows', scope);
    case DropRow(b) =>
      DemolisherHolds(s, t, b);
      ReachedIsMine(s, t, u, b);
      ElsewhereIsSame(rows, rows', scope);
    case AddFork(services) =>
      ForkIsElsewhere(s, t, services, u);
      AddedIsSame(rows, s.ops[t].scope.fork, Row(s.ops[t].scope.project, services), scope);
    case AddFirst(p, b) =>
      FirstIsElsewhere(s, t, p, b, u);
      AddedIsSame(rows, b, Row(p, {}), scope);
  }

  /** A body outgrows its own acquisition no more than others do: it drops rows, moves the one service
      it holds on every branch, or works on a clone it holds every key of. */
  lemma OwnScopeShrinks(s: Sys, t: nat, action: Action)
    requires Inv(s) && MayAct(s, t, action) && InBody(s, t)
    ensures Anchored(Acted(s, t, action).rows, s.ops[t].scope)
    ensures Keys(Acted(s, t, action).rows, s.ops[t].scope) <= Keys(s.rows, s.ops[t].scope)
  {
    var scope, rows, rows' := s.ops[t].scope, s.rows, Acted(s, t, action).rows;
    assert Covered(s, t);
    match scope
    case OneBranch(_) =>
    case Fork(_, source, _) => SameKeys(rows, rows', source);
    case WholeProject(p) =>
      assert BranchesOf(rows', p) <= BranchesOf(rows, p);
      forall x | x in BranchesOf(rows', p) ensures KeysOfBranch(rows', x) == KeysOfBranch(rows, x) { SameKeys(rows, rows', x); }
    case Carriers(p, _) =>
      assert BranchesOf(rows', p) == BranchesOf(rows, p);
  }

  lemma ActingKeepsCovered(s: Sys, t: nat, action: Action, u: nat)
    requires Inv(s) && MayAct(s, t, action) && u < |s.ops|
    ensures Covered(Acted(s, t, action), u)
  {
    assert Covered(s, u);
    if u != t {
      if InBody(s, u) { OthersLeaveScope(s, t, action, u); }
    } else if InBody(s, t) {
      OwnScopeShrinks(s, t, action);
    }
  }

  lemma StepKeepsInv(s: Sys, m: Move)
    requires Inv(s) && Enabled(s, m)
    ensures Inv(Apply(s, m))
  {
    match m
    case Locking(step, _) =>
      LockSafety.StepKeepsInv(s.lock, step);
      forall u: nat | u < |Apply(s, m).ops| ensures Covered(Apply(s, m), u) {
        if u < |s.ops| { assert Covered(s, u); }
      }
    case Act(t, action) =>
      forall u: nat | u < |s.ops| ensures Covered(Apply(s, m), u) { ActingKeepsCovered(s, t, action, u); }
  }

  // ---- whole runs ----

  ghost predicate Leads(s: Sys, m: Move, s': Sys) {
    Shaped(s) && Shaped(s') && Enabled(s, m) && s' == Apply(s, m)
  }

  ghost predicate IsRun(run: seq<Sys>, moves: seq<Move>) {
    && |run| == |moves| + 1
    && run[0].lock == LockState(map[], []) && run[0].ops == [] && run[0].pcs == []
    && (forall i :: 0 <= i < |run| ==> Shaped(run[i]))
    && forall i :: 0 <= i < |moves| ==> Leads(run[i], moves[i], run[i + 1])
  }

  lemma {:induction false} RunsKeepInv(run: seq<Sys>, moves: seq<Move>, i: nat)
    requires IsRun(run, moves) && i < |run|
    ensures Inv(run[i])
  {
    if i == 0 {
      assert forall k :: LockSafety.EntryInv(run[0].lock, k);
    } else {
      RunsKeepInv(run, moves, i - 1);
      assert Leads(run[i - 1], moves[i - 1], run[i - 1 + 1]);
      StepKeepsInv(run[i - 1], moves[i - 1]);
    }
  }

  /** While a settled body runs, its acquisition holds every key the live rows call for, and nobody
      else's body, a wake's or a deploy's say, has acquired any of them. */
  lemma SettledBodyIsPrivate(run: seq<Sys>, moves: seq<Move>, i: nat, t: nat, k: Key)
    requires IsRun(run, moves) && i < |run| && InBody(run[i], t)
    requires k in Keys(run[i].rows, run[i].ops[t].scope)
    ensures Holds(run[i], t, k)
    ensures forall u :: u != t ==> !Holds(run[i], u, k)
  {
    RunsKeepInv(run, moves, i);
    assert Covered(run[i], t);
    forall u | u != t && Holds(run[i], u, k) ensures false { HeldOnce(run[i], t, u, k); }
  }

  /** What another acquisition's step leaves of a row a body is over: the row, in its project, with no
      service added and every service the body holds the key of. The row is as it was, except exactly when
      the step takes a service off it, and then the body is a rename's, over another service. */
  lemma OthersStayOut(run: seq<Sys>, moves: seq<Move>, i: nat, t: nat, b: string)
    requires IsRun(run, moves) && i < |moves| && InBody(run[i], t)
    requires !moves[i].Act? || moves[i].t != t
    requires b in run[i].rows && Reaches(run[i].rows, run[i].ops[t].scope, b)
    ensures b in run[i + 1].rows
    ensures var before, after, scope := run[i].rows[b], run[i + 1].rows[b], run[i].ops[t].scope;
      && after.project == before.project && after.services <= before.services
      && (forall service :: service in before.services && ServiceKey(b, service) in Keys(run[i].rows, scope) ==> service in after.services)
      && (after != before <==> TakesFrom(run[i].rows, moves[i], b))
      && (after != before ==> scope.Carriers?)
  {
    RunsKeepInv(run, moves, i);
    assert Leads(run[i], moves[i], run[i + 1]);
    if moves[i].Act? { StayOut(run[i], moves[i].t, moves[i].action, t, b); }
  }

  predicate TakesFrom(rows: Rows, m: Move, b: string) {
    m.Act? && m.action.Shrink? && m.action.branch == b && m.action.service in ServicesOf(rows, b)
  }

  lemma StayOut(s: Sys, u: nat, action: Action, t: nat, b: string)
    requires Inv(s) && InBody(s, t) && MayAct(s, u, action) && u != t
    requires b in s.rows && Reaches(s.rows, s.ops[t].scope, b)
    ensures b in Acted(s, u, action).rows
    ensures var before, after, scope := s.rows[b], Acted(s, u, action).rows[b], s.ops[t].scope;
      if TakesFrom(s.rows, Act(u, action), b) then
        && after == before.(services := before.services - {action.service}) && action.service in before.services
        && scope.Carriers? && ServiceKey(b, action.service) !in Keys(s.rows, scope)
      else after == before
  {
    match action
    case Grow(x, _) => ReachedIsMine(s, u, t, x);
    case Shrink(x, service) => if x == b && service in s.rows[b].services { RemovalMisses(s, u, b, service, t); }
    case DropRow(x) => DemolisherHolds(s, u, x); ReachedIsMine(s, u, t, x);
    case Retitle(to) =>
      if b in BranchesOf(s.rows, s.ops[u].scope.project) {
        RenamerHolds(s, u, to, b);
        ReachedIsMine(s, u, t, b);
      }
    case _ =>
  }

  // ---- over a whole wait of the body ----

  /** The body of `t` is running from `i` to `j`, and waits: the steps are others'. */
  predicate Waits(run: seq<Sys>, moves: seq<Move>, t: nat, i: nat, j: nat)
    requires i <= j < |run| && |run| == |moves| + 1 && forall x :: 0 <= x < |run| ==> Shaped(run[x])
  {
    && (forall x :: i <= x <= j ==> InBody(run[x], t))
    && forall x :: i <= x < j ==> !moves[x].Act? || moves[x].t != t
  }

  /** However long a body waits, on docker say, the rows it is over are what it left: unchanged under a
      create or a demolition; under a rename, still carrying what the rename is over and nothing new. */
  lemma {:induction false} RowsStandStill(run: seq<Sys>, moves: seq<Move>, t: nat, i: nat, j: nat, b: string)
    requires IsRun(run, moves) && i <= j < |run| && Waits(run, moves, t, i, j)
    requires b in run[i].rows && Reaches(run[i].rows, run[i].ops[t].scope, b)
    ensures run[j].ops[t] == run[i].ops[t] && b in run[j].rows && Reaches(run[j].rows, run[i].ops[t].scope, b)
    ensures run[j].rows[b].project == run[i].rows[b].project && run[j].rows[b].services <= run[i].rows[b].services
    ensures var scope := run[i].ops[t].scope;
      if scope.Carriers? then scope.service in run[i].rows[b].services ==> scope.service in run[j].rows[b].services
      else run[j].rows[b] == run[i].rows[b]
    decreases j
  {
    if i < j {
      RowsStandStill(run, moves, t, i, j - 1, b);
      var scope := run[i].ops[t].scope;
      OthersStayOut(run, moves, j - 1, t, b);
      if scope.Carriers? {
        assert b in BranchesOf(run[j - 1].rows, scope.project);
        assert ServiceKey(b, scope.service) in Keys(run[j - 1].rows, scope);
      }
    }
  }

  // ---- a removal under a rename ----

  const BEFORE: Rows := map["b" := Row("p", {"cp-web", "rd-x"})]

  /** A rename of `cp-web` and a removal of `rd-x`, on one branch. */
  const RENAME: Op := Round(Carriers("p", "cp-web"))
  const SLIPPING: seq<Move> := [
    Locking(LockSafety.Take(None, {BranchKey("b"), ServiceKey("b", "cp-web")}, false), RENAME),
    Locking(LockSafety.Start(0), OtherOp),
    Act(0, Check),
    Locking(LockSafety.Take(None, {ServiceKey("b", "rd-x")}, false), OtherOp),
    Locking(LockSafety.Start(1), OtherOp),
    Act(1, Shrink("b", "rd-x"))]

  lemma KeysDiffer()
    ensures ServiceKey("b", "rd-x") != BranchKey("b") && ServiceKey("b", "rd-x") != ServiceKey("b", "cp-web")
  {
    assert ServiceKey("b", "rd-x")[2] == 'r' && BranchKey("b")[2] == '*' && ServiceKey("b", "cp-web")[2] == 'c';
  }

  lemma RenameCallsFor()
    ensures Found(BEFORE, RENAME.scope) && Keys(BEFORE, RENAME.scope) == {BranchKey("b"), ServiceKey("b", "cp-web")}
  {
    assert BranchesOf(BEFORE, "p") == {"b"};
    assert "b" in BranchesOf(BEFORE, "p");
  }

  lemma SixSteps(s: seq<Sys>, m: seq<Move>)
    requires |s| == 7 && |m| == 6 && s[0].lock == LockState(map[], []) && s[0].ops == [] && s[0].pcs == []
    requires Leads(s[0], m[0], s[1]) && Leads(s[1], m[1], s[2]) && Leads(s[2], m[2], s[3])
    requires Leads(s[3], m[3], s[4]) && Leads(s[4], m[4], s[5]) && Leads(s[5], m[5], s[6])
    ensures IsRun(s, m)
  {
  }

  lemma RenameIsQueued() returns (s0: Sys, s1: Sys)
    ensures s0 == Sys(LockState(map[], []), [], [], BEFORE) && Leads(s0, SLIPPING[0], s1)
    ensures |s1.lock.tickets| == 1 && s1.lock.tickets[0].phase == Waiting && LockSafety.Enabled(s1.lock, LockSafety.Start(0))
    ensures s1.lock.tickets[0].need == {BranchKey("b"), ServiceKey("b", "cp-web")} && ServiceKey("b", "rd-x") !in s1.lock.ops
    ensures s1.ops == [RENAME] && s1.pcs == [Unchecked] && s1.rows == BEFORE
  {
    KeysDiffer();
    s0 := Sys(LockState(map[], []), [], [], BEFORE);
    assert BranchKey("b") in {BranchKey("b"), ServiceKey("b", "cp-web")};
    s1 := Apply(s0, SLIPPING[0]);
  }

  lemma RenameRuns(s1: Sys) returns (s2: Sys, s3: Sys)
    requires |s1.lock.tickets| == 1 && s1.lock.tickets[0].phase == Waiting && LockSafety.Enabled(s1.lock, LockSafety.Start(0))
    requires s1.lock.tickets[0].need == {BranchKey("b"), ServiceKey("b", "cp-web")}
    requires s1.ops == [RENAME] && s1.pcs == [Unchecked] && s1.rows == BEFORE
    ensures Leads(s1, SLIPPING[1], s2) && Leads(s2, SLIPPING[2], s3) && s3.ops == [RENAME] && s3.rows == BEFORE
    ensures InBody(s3, 0) && s3.lock.ops == s1.lock.ops && |s3.lock.tickets| == 1
  {
    RenameCallsFor();
    s2 := Apply(s1, SLIPPING[1]);
    s3 := Apply(s2, SLIPPING[2]);
  }

  lemma RemovalRuns(s3: Sys) returns (s4: Sys, s5: Sys, s6: Sys)
    requires Shaped(s3) && |s3.lock.tickets| == 1 && s3.ops == [RENAME] && s3.rows == BEFORE && InBody(s3, 0)
    requires ServiceKey("b", "rd-x") !in s3.lock.ops
    ensures Leads(s3, SLIPPING[3], s4) && Leads(s4, SLIPPING[4], s5) && Leads(s5, SLIPPING[5], s6)
    ensures InBody(s5, 0) && InBody(s6, 0) && s5.ops[0] == RENAME
    ensures s5.rows == BEFORE && s6.rows == map["b" := Row("p", {"cp-web"})]
  {
    assert ServiceKey("b", "rd-x") in {ServiceKey("b", "rd-x")};
    s4 := Apply(s3, SLIPPING[3]);
    assert LockSafety.Enabled(s4.lock, LockSafety.Start(1));
    s5 := Apply(s4, SLIPPING[4]);
    assert Holds(s5, 1, ServiceKey("b", "rd-x"));
    s6 := Apply(s5, SLIPPING[5]);
    assert {"cp-web", "rd-x"} - {"rd-x"} == {"cp-web"};
  }

  /** The exception is reached: under the rename's body, with every key it calls for held, the row it is
      over loses another service. */
  lemma RemovalSlipsIn() returns (run: seq<Sys>)
    ensures IsRun(run, SLIPPING) && InBody(run[5], 0) && InBody(run[6], 0) && run[5].ops[0] == RENAME
    ensures run[5].rows == BEFORE && run[6].rows == map["b" := Row("p", {"cp-web"})]
  {
    var s0, s1 := RenameIsQueued();
    var s2, s3 := RenameRuns(s1);
    var s4, s5, s6 := RemovalRuns(s3);
    run := [s0, s1, s2, s3, s4, s5, s6];
    SixSteps(run, SLIPPING);
  }
}
