/**
 Progress of the operation lock together with the engine-wide provision chain: under the daemon's
 discipline the wait-for graph never has a cycle, and once no new operation arrives every queued
 one runs to its end, whatever order the steps are taken in.

 The discipline: an operation makes one blocking acquisition, before it holds anything; an
 acquisition made inside a body either asks for keys that body owns (and then takes none) or is a
 `tryWithOp`, of which a body makes no more than its allotment; and the provision chain is entered at
 most once, by an operation that holds its keys.
 */
module LockProgress {
  import opened Options
  import opened OpLock
  import opened LockSafety
  import Eviction

  /** `chain` is the promise chain of `serialize('provision')`, oldest first; its head is running.
      `left[t]` is how many acquisitions the body of `t`, and those nested in it, can still make. */
  datatype Sys = Sys(lock: LockState, chain: seq<nat>, entered: set<nat>, left: seq<nat>)

  /** `allotment` is what an acquisition is accepted with. A wake tries to put at most `EVICTION_CEILING`
      services to sleep, so an operation that makes `w` wakes has `Allotment(w)`; a sleep makes none. */
  datatype Move =
    | Locking(step: Step, allotment: nat)
    | Join(ticket: nat)
    | Leave(ticket: nat)

  ghost predicate Childless(s: LockState, t: nat) {
    forall c :: ChildOf(s, c, t) ==> !Live(s, c)
  }

  function Allotment(wakes: nat): nat {
    wakes * Eviction.EVICTION_CEILING
  }

  ghost predicate CanMove(s: Sys, m: Move) {
    match m
    case Locking(step, allotment) =>
      && Enabled(s.lock, step)
      && (step.Take? && step.parent.Some? ==>
            step.refuseIfBusy && step.parent.value < |s.left| && s.left[step.parent.value] > allotment)
      && (step.Stop? ==> step.ticket !in s.chain)
    case Join(t) => Runs(s.lock, t) && s.lock.tickets[t].parent == None && t !in s.entered
    case Leave(t) => s.chain != [] && s.chain[0] == t && Childless(s.lock, t)
  }

  /** A nested acquisition, and all it may make in turn, is paid for out of its maker's allotment. */
  function Charged(left: seq<nat>, step: Step, allotment: nat): seq<nat>
    requires step.Take? && step.parent.Some? ==> step.parent.value < |left| && left[step.parent.value] > allotment
  {
    if !step.Take? then left
    else if step.parent.None? then left + [allotment]
    else left[step.parent.value := left[step.parent.value] - 1 - allotment] + [allotment]
  }

  ghost function Moved(s: Sys, m: Move): Sys
    requires CanMove(s, m)
  {
    match m
    case Locking(step, allotment) => s.(lock := Apply(s.lock, step), left := Charged(s.left, step, allotment))
    case Join(t) => s.(chain := s.chain + [t], entered := s.entered + {t})
    case Leave(_) => s.(chain := s.chain[1..])
  }

  // ---- who waits for whom ----

  ghost predicate QueuedBehind(s: LockState, u: nat, t: nat) {
    && t < u < |s.tickets|
    && s.tickets[u].phase == Waiting
    && Live(s, t)
    && !(s.tickets[u].need !! s.tickets[t].need)
  }

  ghost predicate ChainedBehind(s: Sys, u: nat, t: nat) {
    exists i, j :: 0 <= i < j < |s.chain| && s.chain[i] == t && s.chain[j] == u
  }

  ghost predicate WaitsFor(s: Sys, u: nat, t: nat) {
    || QueuedBehind(s.lock, u, t)
    || (Runs(s.lock, u) && ChildOf(s.lock, t, u) && Live(s.lock, t))
    || ChainedBehind(s, u, t)
  }

  // ---- the invariant ----

  ghost predicate SysInv(s: Sys) {
    && Inv(s.lock) && |s.left| == |s.lock.tickets|
    && (forall t: nat :: t < |s.lock.tickets| && s.lock.tickets[t].parent.Some? ==> Ready(s.lock, t))
    && (forall i, j :: 0 <= i < j < |s.chain| ==> s.chain[i] != s.chain[j])
    && (forall t :: t in s.chain ==> Runs(s.lock, t) && s.lock.tickets[t].parent == None && t in s.entered)
  }

  lemma LockingKeepsSysInv(s: Sys, step: Step, allotment: nat)
    requires SysInv(s) && CanMove(s, Locking(step, allotment))
    ensures SysInv(Moved(s, Locking(step, allotment)))
  {
    var l, l' := s.lock, Apply(s.lock, step);
    StepKeepsInv(l, step);
    if step.Take? && step.parent.Some? {
      GrantedTryIsReady(l, step.parent, step.keys);
    }
    forall t: nat | t < |l'.tickets| && l'.tickets[t].parent.Some? ensures Ready(l', t) {
      if t < |l.tickets| {
        assert l'.tickets[t].parent == l.tickets[t].parent;
        ReadyIsKept(l, l', t);
      }
    }
  }

  lemma MoveKeepsSysInv(s: Sys, m: Move)
    requires SysInv(s) && CanMove(s, m)
    ensures SysInv(Moved(s, m))
  {
    match m
    case Locking(step, allotment) => LockingKeepsSysInv(s, step, allotment);
    case Join(t) =>
    case Leave(t) =>
  }

  // ---- no cycle ----

  function IndexIn(chain: seq<nat>, t: nat): (i: nat)
    requires t in chain
    ensures i < |chain| && chain[i] == t
  {
    if chain[0] == t then 0 else 1 + IndexIn(chain[1..], t)
  }

  /** Nested acquisitions lowest (they wait for nobody but their own children), then running
      operations by their place in the provision chain, then waiting ones by age. */
  function Tier(s: Sys, t: nat): nat
    requires t < |s.lock.tickets|
  {
    var tk := s.lock.tickets[t];
    if tk.parent.Some? then 0 else if tk.phase == Waiting then 2 else 1
  }

  function Place(s: Sys, t: nat): nat
    requires t < |s.lock.tickets|
  {
    if Tier(s, t) == 0 then |s.lock.tickets| - t
    else if Tier(s, t) == 2 then t
    else if t in s.chain then 1 + IndexIn(s.chain, t) else 0
  }

  lemma {:induction false} IndexIsUnique(chain: seq<nat>, i: nat)
    requires i < |chain|
    requires forall a, b :: 0 <= a < b < |chain| ==> chain[a] != chain[b]
    ensures IndexIn(chain, chain[i]) == i
  {
    var j := IndexIn(chain, chain[i]);
  }

  lemma WaitingGoesDown(s: Sys, u: nat, t: nat)
    requires SysInv(s) && WaitsFor(s, u, t)
    ensures t < |s.lock.tickets| && u < |s.lock.tickets| && Live(s.lock, t)
    ensures Tier(s, t) < Tier(s, u) || (Tier(s, t) == Tier(s, u) && Place(s, t) < Place(s, u))
  {
    if QueuedBehind(s.lock, u, t) {
      if s.lock.tickets[u].parent.Some? {
        ReadyIffPredecessorsDone(s.lock, u);
        var k :| k in s.lock.tickets[u].need && k in s.lock.tickets[t].need;
        assert Takes(s.lock, t, k);
      }
    } else if ChainedBehind(s, u, t) {
      var i, j :| 0 <= i < j < |s.chain| && s.chain[i] == t && s.chain[j] == u;
      IndexIsUnique(s.chain, i);
      IndexIsUnique(s.chain, j);
      assert t in s.chain && u in s.chain;
    } else {
      assert TicketInv(s.lock, t);
    }
  }

  ghost predicate WaitPath(s: Sys, path: seq<nat>) {
    && |path| >= 2
    && forall i :: 0 <= i < |path| - 1 ==> WaitsFor(s, path[i], path[i + 1])
  }

  lemma {:induction false} PathGoesDown(s: Sys, path: seq<nat>)
    requires SysInv(s) && WaitPath(s, path)
    ensures path[0] < |s.lock.tickets| && path[|path| - 1] < |s.lock.tickets|
    ensures var u, t := path[0], path[|path| - 1];
      Tier(s, t) < Tier(s, u) || (Tier(s, t) == Tier(s, u) && Place(s, t) < Place(s, u))
  {
    WaitingGoesDown(s, path[0], path[1]);
    if |path| > 2 {
      var rest := path[1..];
      forall i | 0 <= i < |rest| - 1 ensures WaitsFor(s, rest[i], rest[i + 1]) {
        assert WaitsFor(s, path[i + 1], path[i + 1 + 1]);
      }
      PathGoesDown(s, rest);
      assert path == [path[0]] + rest;
    }
  }

  /** The daemon never deadlocks: nothing waits, through however many others, for itself. */
  lemma WaitGraphIsAcyclic(s: Sys, path: seq<nat>)
    requires SysInv(s) && WaitPath(s, path)
    ensures path[0] != path[|path| - 1]
  {
    PathGoesDown(s, path);
  }

  // ---- no operation is stuck ----

  /** A move of an operation already accepted; its body may acquire more, within its allotment. */
  predicate Continues(m: Move) {
    m.Locking? && m.step.Take? ==> m.step.parent.Some?
  }

  lemma BehindTheHead(s: Sys, t: nat)
    requires t in s.chain
    ensures s.chain[0] == t || ChainedBehind(s, t, s.chain[0])
  {
    var i :| 0 <= i < |s.chain| && s.chain[i] == t;
    assert s.chain[0] == s.chain[0];
  }

  /** Behind every operation that is not done there is one that can go on now. */
  lemma {:induction false} SomeoneCanGoOn(s: Sys, t: nat) returns (m: Move)
    requires SysInv(s) && Live(s.lock, t)
    ensures CanMove(s, m) && Continues(m) && !m.Join?
    decreases Tier(s, t), Place(s, t)
  {
    if u :| WaitsFor(s, t, u) {
      WaitingGoesDown(s, t, u);
      m := SomeoneCanGoOn(s, u);
    } else if s.lock.tickets[t].phase == Waiting {
      forall u: nat, k | u < t && k in s.lock.tickets[t].need && Takes(s.lock, u, k)
        ensures IsDone(s.lock, u)
      {
        assert !WaitsFor(s, t, u);
        assert k in s.lock.tickets[u].need;
      }
      ReadyIffPredecessorsDone(s.lock, t);
      m := Locking(Start(t), 0);
    } else {
      forall c | ChildOf(s.lock, c, t) ensures !Live(s.lock, c) {
        assert !WaitsFor(s, t, c);
      }
      if t in s.chain {
        BehindTheHead(s, t);
        assert !WaitsFor(s, t, s.chain[0]);
        m := Leave(t);
      } else {
        m := Locking(Stop(t), 0);
      }
    }
  }

  // ---- everything drains ----

  /** The moves an acquisition has before it, were it alone. */
  function Stages(s: Sys, t: nat): nat
    requires t < |s.lock.tickets|
  {
    match s.lock.tickets[t].phase
    case Done => 0
    case Waiting => 4
    case Running => if t in s.chain then 2 else if t in s.entered then 1 else 3
  }

  /** ... and those of everything its body can still acquire: one to take each, and four to run it. */
  function Remaining(s: Sys, t: nat): nat
    requires t < |s.lock.tickets| == |s.left|
  {
    Stages(s, t) + 5 * s.left[t]
  }

  function Work(s: Sys, n: nat): nat
    requires n <= |s.lock.tickets| == |s.left|
  {
    if n == 0 then 0 else Work(s, n - 1) + Remaining(s, n - 1)
  }

  function TotalWork(s: Sys): nat
    requires |s.lock.tickets| == |s.left|
  {
    Work(s, |s.lock.tickets|)
  }

  lemma {:induction false} WorkGoesDown(s: Sys, s': Sys, t: nat, spent: nat, n: nat)
    requires |s.lock.tickets| == |s.left| <= |s'.lock.tickets| == |s'.left|
    requires n <= |s.left| && t < |s.left|
    requires forall u: nat :: u < |s.left| && u != t ==> Remaining(s', u) == Remaining(s, u)
    requires Remaining(s', t) + spent <= Remaining(s, t)
    ensures Work(s', n) + (if n > t then spent else 0) <= Work(s, n)
  {
    if n > 0 {
      WorkGoesDown(s, s', t, spent, n - 1);
    }
  }

  /** A sleep that an eviction asks for costs its wake one more than it adds. */
  lemma NestingGoesDown(s: Sys, step: Step, allotment: nat)
    requires SysInv(s) && CanMove(s, Locking(step, allotment)) && step.Take? && step.parent.Some?
    ensures |Moved(s, Locking(step, allotment)).left| == |s.left| + 1 == |Moved(s, Locking(step, allotment)).lock.tickets|
    ensures TotalWork(Moved(s, Locking(step, allotment))) < TotalWork(s)
  {
    var s', n, p := Moved(s, Locking(step, allotment)), |s.left|, step.parent.value;
    assert n !in s.chain;
    forall u: nat | u < n && u != p ensures Remaining(s', u) == Remaining(s, u) {
      assert s'.lock.tickets[u] == s.lock.tickets[u] && s'.left[u] == s.left[u];
    }
    assert s'.lock.tickets[p] == s.lock.tickets[p];
    WorkGoesDown(s, s', p, 5 + 5 * allotment, n);
    assert Remaining(s', n) == 4 + 5 * allotment;
  }

  lemma ContinuingGoesDown(s: Sys, m: Move)
    requires SysInv(s) && CanMove(s, m) && Continues(m)
    ensures SysInv(Moved(s, m)) && TotalWork(Moved(s, m)) < TotalWork(s)
  {
    MoveKeepsSysInv(s, m);
    var s' := Moved(s, m);
    match m
    case Locking(step, allotment) =>
      if step.Take? {
        NestingGoesDown(s, step, allotment);
      } else {
        WorkGoesDown(s, s', step.ticket, 1, |s.left|);
      }
    case Join(t) =>
      assert t !in s.chain;
      WorkGoesDown(s, s', t, 1, |s.left|);
    case Leave(t) =>
      assert s.chain == [t] + s'.chain;
      assert t in s.chain;
      forall u: nat | u < |s.left| && u != t ensures Remaining(s', u) == Remaining(s, u) {
        assert u in s.chain <==> u in s'.chain;
      }
      assert t !in s'.chain;
      WorkGoesDown(s, s', t, 1, |s.left|);
  }

  ghost predicate IsSchedule(run: seq<Sys>, moves: seq<Move>) {
    && |run| == |moves| + 1
    && forall i :: 0 <= i < |moves| ==>
         Continues(moves[i]) && CanMove(run[i], moves[i]) && run[i + 1] == Moved(run[i], moves[i])
  }

  lemma {:induction false} ScheduleIsBounded(run: seq<Sys>, moves: seq<Move>)
    requires IsSchedule(run, moves) && SysInv(run[0])
    ensures SysInv(run[|moves|]) && |moves| + TotalWork(run[|moves|]) <= TotalWork(run[0])
    decreases |moves|
  {
    if moves != [] {
      var n := |moves| - 1;
      var shorter := run[..n + 1];
      assert IsSchedule(shorter, moves[..n]);
      ScheduleIsBounded(shorter, moves[..n]);
      ContinuingGoesDown(run[n], moves[n]);
    }
  }

  lemma {:induction false} WorkIsBounded(s: Sys, n: nat, most: nat)
    requires n <= |s.lock.tickets| == |s.left|
    requires forall t :: 0 <= t < |s.left| ==> s.left[t] <= most
    ensures Work(s, n) <= n * (4 + 5 * most)
  {
    if n > 0 {
      WorkIsBounded(s, n - 1, most);
      assert n * (4 + 5 * most) == (n - 1) * (4 + 5 * most) + (4 + 5 * most);
    }
  }

  /** When no accepted operation makes more than `wakes` wakes, whatever those evict, that many moves
      end them all. */
  lemma WakesEndWithin(run: seq<Sys>, moves: seq<Move>, wakes: nat)
    requires IsSchedule(run, moves) && SysInv(run[0])
    requires forall t :: 0 <= t < |run[0].left| ==> run[0].left[t] <= Allotment(wakes)
    ensures |moves| <= |run[0].lock.tickets| * (4 + 5 * Allotment(wakes))
  {
    ScheduleIsBounded(run, moves);
    WorkIsBounded(run[0], |run[0].left|, Allotment(wakes));
  }

  /** Once no new operation arrives, every schedule is finite, the wakes of accepted operations and the
      sleeps those ask for included, and it can stop only when every operation, whatever it was queued
      behind, has run and ended. */
  lemma EveryScheduleDrains(run: seq<Sys>, moves: seq<Move>)
    requires IsSchedule(run, moves) && SysInv(run[0])
    ensures |moves| <= TotalWork(run[0])
    ensures (forall m :: CanMove(run[|moves|], m) ==> !Continues(m)) ==>
      && (forall t: nat :: t < |run[|moves|].lock.tickets| ==> IsDone(run[|moves|].lock, t))
      && run[|moves|].chain == []
  {
    ScheduleIsBounded(run, moves);
    var last := run[|moves|];
    assert last.chain != [] ==> last.chain[0] in last.chain && !IsDone(last.lock, last.chain[0]);
    if (forall m :: CanMove(last, m) ==> !Continues(m)) {
      forall t: nat | t < |last.lock.tickets| ensures IsDone(last.lock, t) {
        if Live(last.lock, t) {
          var m := SomeoneCanGoOn(last, t);
        }
      }
    }
  }
}
