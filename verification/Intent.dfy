/**
 Recorded intent against wakes: what a developer stopped stays stopped, however requests, sweeps and
 operations interleave.

 A request reads the intent before it queues, and the wake reads it again once it holds the key. In
 between, and after, the intent can change hands; that it cannot change under a wake that has cleared
 it rests on the operation lock alone, since every writer of it holds the same key.
 */
module Intent {
  import opened Options
  import opened OpLock
  import LockSafety

  datatype Desired = Running | Stopped | Suspended

  /** What the body of an acquisition is. The always-on pass and `lifecycle start` wake in place,
      inside their own acquisition; a `lifecycle stop` or `suspend` acquires nothing further. */
  datatype Op =
    | Wake(key: Key)
    | AlwaysOnWake(key: Key)
    | StartOp(key: Key)
    | StopOp(key: Key, to: Desired)
    | OtherOp

  /** How far a body has got: nothing yet; its intent is settled as running, so it may start the
      container; it was refused; its container is down; its intent is written. */
  datatype Pc = Fresh | Cleared | Refused | Down | Written

  datatype Sys = Sys(lock: LockState, ops: seq<Op>, pcs: seq<Pc>, wakes: map<Key, nat>, intent: map<Key, Desired>, up: set<Key>)

  datatype Move =
    | Request(key: Key)
    | AlwaysOn(key: Key)
    | Ask(op: Op, keys: set<Key>)
    | Nest(parent: nat, keys: set<Key>, refuseIfBusy: bool)
    | Begin(t: nat)
    | End(t: nat)
    | Check(t: nat)
    | Launch(t: nat)
    | Halt(t: nat)
    | Record(t: nat)
    | Unlist(t: nat)
    | Touch(t: nat, key: Key, on: bool)
    | Crash(key: Key)

  function IntentOf(s: Sys, k: Key): Desired {
    if k in s.intent then s.intent[k] else Desired.Running
  }

  function LockStep(m: Move): Option<LockSafety.Step> {
    match m
    case Request(k) => Some(LockSafety.Take(None, {k}, false))
    case AlwaysOn(k) => Some(LockSafety.Take(None, {k}, false))
    case Ask(_, keys) => Some(LockSafety.Take(None, keys, false))
    case Nest(parent, keys, refuseIfBusy) => Some(LockSafety.Take(Some(parent), keys, refuseIfBusy))
    case Begin(t) => Some(LockSafety.Start(t))
    case End(t) => Some(LockSafety.Stop(t))
    case _ => None
  }

  predicate Shaped(s: Sys) {
    |s.ops| == |s.pcs| == |s.lock.tickets|
  }

  /** The body of `t` is running and has got to `pc`. */
  predicate At(s: Sys, t: nat, pc: Pc)
    requires Shaped(s)
  {
    LockSafety.Runs(s.lock, t) && s.pcs[t] == pc
  }

  ghost predicate Enabled(s: Sys, m: Move)
    requires Shaped(s)
  {
    && (LockStep(m).Some? ==> LockSafety.Enabled(s.lock, LockStep(m).value))
    && match m
       case Request(k) => IntentOf(s, k) == Desired.Running && k !in s.wakes
       case AlwaysOn(k) => IntentOf(s, k) == Desired.Running && k !in s.wakes && CountOf(s.lock.ops, k) <= 0
       case Ask(op, keys) => !op.Wake? && !op.AlwaysOnWake? && (!op.OtherOp? ==> op.key in keys) && (op.StopOp? ==> op.to != Desired.Running)
       case Nest(parent, _, _) => !s.ops[parent].StopOp?
       case Begin(_) => true
       case End(t) => !s.ops[t].OtherOp? && !s.ops[t].Wake? && s.ops[t].key in s.wakes ==> s.wakes[s.ops[t].key] != t
       case Check(t) => At(s, t, Fresh) && (s.ops[t].Wake? || s.ops[t].AlwaysOnWake?)
       case Launch(t) => At(s, t, Cleared)
       case Halt(t) => At(s, t, Fresh) && s.ops[t].StopOp?
       case Record(t) => (At(s, t, Fresh) && s.ops[t].StartOp?) || (At(s, t, Down) && s.ops[t].StopOp?)
       case Unlist(t) => t < |s.ops| && (s.ops[t].AlwaysOnWake? || s.ops[t].StartOp?) && s.ops[t].key in s.wakes && s.wakes[s.ops[t].key] == t
       case Touch(t, k, _) => LockSafety.Runs(s.lock, t) && s.ops[t].OtherOp? && k in s.lock.tickets[t].owned
       case Crash(_) => true
  }

  function Listed(wakes: map<Key, nat>, k: Key, t: nat): map<Key, nat> {
    if k in wakes then wakes else wakes[k := t]
  }

  ghost function Apply(s: Sys, m: Move): Sys
    requires Shaped(s) && Enabled(s, m)
  {
    var n := |s.lock.tickets|;
    var lock := if LockStep(m).Some? then LockSafety.Apply(s.lock, LockStep(m).value) else s.lock;
    match m
    case Request(k) => s.(lock := lock, ops := s.ops + [Wake(k)], pcs := s.pcs + [Fresh], wakes := s.wakes[k := n])
    case AlwaysOn(k) => s.(lock := lock, ops := s.ops + [AlwaysOnWake(k)], pcs := s.pcs + [Fresh])
    case Ask(op, _) => s.(lock := lock, ops := s.ops + [op], pcs := s.pcs + [Fresh])
    case Nest(_, _, _) => s.(lock := lock, ops := s.ops + [OtherOp], pcs := s.pcs + [Fresh])
    case Begin(_) => s.(lock := lock)
    case End(t) => s.(lock := lock, wakes := if s.ops[t].Wake? then s.wakes - {s.ops[t].key} else s.wakes)
    case Check(t) =>
      if IntentOf(s, s.ops[t].key) != Desired.Running then s.(pcs := s.pcs[t := Refused])
      else s.(pcs := s.pcs[t := Cleared], wakes := Listed(s.wakes, s.ops[t].key, t))
    case Launch(t) => if s.ops[t].OtherOp? then s else s.(up := s.up + {s.ops[t].key})
    case Halt(t) => s.(pcs := s.pcs[t := Down], up := s.up - {s.ops[t].key})
    case Record(t) =>
      var k := s.ops[t].key;
      if s.ops[t].StartOp? then s.(pcs := s.pcs[t := Cleared], intent := s.intent[k := Desired.Running], wakes := Listed(s.wakes, k, t))
      else s.(pcs := s.pcs[t := Written], intent := s.intent[k := s.ops[t].to])
    case Unlist(t) => s.(wakes := s.wakes - {s.ops[t].key})
    case Touch(_, k, on) => s.(up := if on then s.up + {k} else s.up - {k})
    case Crash(k) => s.(up := s.up - {k})
  }

  // ---- the scheduler's own steps ----

  datatype Reply = ServiceStopped | Joined(wake: nat) | Queued(wake: nat)

  class Doors {
    const lock: Lock
    var ops: seq<Op>
    var pcs: seq<Pc>
    var wakes: map<Key, nat>
    var intent: map<Key, Desired>
    var up: set<Key>

    constructor (lock: Lock, intent: map<Key, Desired>, up: set<Key>)
      requires lock.State() == LockState(map[], [])
      ensures this.lock == lock && State() == Sys(LockState(map[], []), [], [], map[], intent, up)
    {
      this.lock, this.intent, this.up := lock, intent, up;
      ops, pcs, wakes := [], [], map[];
    }

    ghost function State(): Sys
      reads this, lock
    {
      Sys(lock.State(), ops, pcs, wakes, intent, up)
    }

    /** `wake` at the traffic door, in the synchronous step of the request. */
    method Wake(key: Key) returns (r: Reply)
      requires Shaped(State())
      modifies this, lock
      ensures IntentOf(old(State()), key) != Desired.Running ==> r == ServiceStopped && State() == old(State())
      ensures IntentOf(old(State()), key) == Desired.Running && key in old(wakes) ==> r == Joined(old(wakes)[key]) && State() == old(State())
      ensures IntentOf(old(State()), key) == Desired.Running && key !in old(wakes) ==>
        r == Queued(old(|lock.tickets|)) && Enabled(old(State()), Request(key)) && State() == Apply(old(State()), Request(key))
    {
      if key in intent && intent[key] != Desired.Running {
        return ServiceStopped;
      }
      if key in wakes {
        return Joined(wakes[key]);
      }
      assert KeySet([key]) == {key};
      var ticket := lock.WithOp(None, [key]);
      ops, pcs, wakes := ops + [Op.Wake(key)], pcs + [Fresh], wakes[key := ticket.value];
      r := Queued(ticket.value);
    }

    /** The head of a granted wake, or of the always-on pass under its lock: the intent is read again. */
    method Recheck(t: nat) returns (ok: bool)
      requires Shaped(State()) && Enabled(State(), Check(t))
      modifies this
      ensures State() == Apply(old(State()), Check(t))
      ensures ok <==> IntentOf(State(), ops[t].key) == Desired.Running
      ensures ok ==> ops[t].key in wakes
    {
      var key := ops[t].key;
      ok := key !in intent || intent[key] == Desired.Running;
      pcs := pcs[t := if ok then Cleared else Refused];
      if ok && key !in wakes {
        wakes := wakes[key := t];
      }
    }

    /** `lifecycleLocked`, the write: a start records its intent before it wakes, a stop or suspend
        only once docker has done it. */
    method WriteIntent(t: nat)
      requires Shaped(State()) && Enabled(State(), Record(t))
      modifies this
      ensures State() == Apply(old(State()), Record(t))
      // The service is meant to run after a start, and to be as asked after a stop; no other intent, no
      // container and no place in the lock moves.
      ensures IntentOf(State(), ops[t].key) == if ops[t].StartOp? then Desired.Running else ops[t].to
      ensures forall k :: k != ops[t].key ==> IntentOf(State(), k) == IntentOf(old(State()), k)
      ensures up == old(up) && ops == old(ops) && lock.State() == old(lock.State())
      ensures ops[t].StartOp? ==> ops[t].key in wakes
      // Nothing is put on record as stopped while its container is up.
      ensures Inv(old(State())) ==> Inv(State()) && (IntentOf(State(), ops[t].key) == Desired.Running || ops[t].key !in up)
    {
      ghost var before := State();
      if Inv(before) {
        StepKeepsInv(before, Record(t));
        assert OpInv(before, t);
      }
      var op := ops[t];
      if op.StartOp? {
        intent := intent[op.key := Desired.Running];
        pcs := pcs[t := Cleared];
        if op.key !in wakes {
          wakes := wakes[op.key := t];
        }
      } else {
        intent := intent[op.key := op.to];
        pcs := pcs[t := Written];
      }
    }
  }

  // ---- the invariant ----

  ghost predicate OpInv(s: Sys, t: nat)
    requires Shaped(s) && t < |s.ops|
  {
    && (!s.ops[t].OtherOp? ==> LockSafety.Takes(s.lock, t, s.ops[t].key) && s.lock.tickets[t].parent == None)
    && (s.ops[t].StopOp? ==> s.ops[t].to != Desired.Running)
    && (s.pcs[t] == Cleared ==> !s.ops[t].OtherOp? && !s.ops[t].StopOp?)
    && (s.pcs[t] == Down ==> s.ops[t].StopOp?)
    && (s.lock.tickets[t].phase == Waiting ==> s.pcs[t] == Fresh)
    && (At(s, t, Cleared) ==> IntentOf(s, s.ops[t].key) == Desired.Running)
    && (At(s, t, Down) ==> s.ops[t].key !in s.up)
    && (s.lock.tickets[t].parent.Some? ==> s.lock.tickets[t].parent.value < t && !s.ops[s.lock.tickets[t].parent.value].StopOp?)
    && (s.ops[t].Wake? && LockSafety.Live(s.lock, t) ==> s.ops[t].key in s.wakes && s.wakes[s.ops[t].key] == t)
  }

  ghost predicate Inv(s: Sys) {
    && Shaped(s) && LockSafety.Inv(s.lock)
    && forall t: nat :: t < |s.ops| ==> OpInv(s, t)
  }

  /** Two bodies that run at once are not both about one key. */
  lemma OneBodyPerKey(s: Sys, t: nat, u: nat)
    requires Inv(s) && LockSafety.Runs(s.lock, t) && LockSafety.Runs(s.lock, u) && t != u
    requires !s.ops[t].OtherOp? && !s.ops[u].OtherOp?
    ensures s.ops[t].key != s.ops[u].key
  {
    assert OpInv(s, t) && OpInv(s, u);
    LockSafety.MutualExclusion(s.lock, t, u);
  }

  lemma {:induction false} NothingUnderAStop(s: Sys, a: nat, t: nat, k: Key)
    requires Inv(s) && LockSafety.Acquirer(s.lock, a, t, k) && a < |s.ops| && s.ops[a].StopOp?
    ensures t == a
    decreases t
  {
    assert OpInv(s, t);
    if k !in s.lock.tickets[t].need {
      NothingUnderAStop(s, a, s.lock.tickets[t].parent.value, k);
    }
  }

  /** While a stop runs no other body owns its key, nested ones included. */
  lemma StopsOwnTheirKeyAlone(s: Sys, stop: nat, u: nat)
    requires Inv(s) && LockSafety.Runs(s.lock, stop) && LockSafety.Runs(s.lock, u) && stop != u && s.ops[stop].StopOp?
    ensures s.ops[stop].key !in s.lock.tickets[u].owned
  {
    var k := s.ops[stop].key;
    assert OpInv(s, stop);
    if k in s.lock.tickets[u].owned {
      var a := LockSafety.OwnedKeyHasRunningAcquirer(s.lock, u, k);
      if a != stop {
        LockSafety.MutualExclusion(s.lock, a, stop);
      } else {
        NothingUnderAStop(s, a, u, k);
      }
    }
  }

  /** Locking moves: an acquisition, a grant, an end. */
  lemma LockingKeepsOp(s: Sys, m: Move, t: nat)
    requires Inv(s) && Enabled(s, m) && LockStep(m).Some? && t < |Apply(s, m).ops|
    ensures OpInv(Apply(s, m), t)
  {
    if t < |s.ops| {
      assert OpInv(s, t);
    }
    if m.End? {
      assert OpInv(s, m.t);
    }
  }

  /** What a body does while it holds its keys. */
  lemma ActingKeepsOp(s: Sys, m: Move, t: nat)
    requires Inv(s) && Enabled(s, m) && LockStep(m).None? && t < |s.ops|
    ensures OpInv(Apply(s, m), t)
  {
    assert OpInv(s, t);
    if m.Record? && t != m.t && At(s, t, Cleared) {
      assert OpInv(s, m.t);
      OneBodyPerKey(s, t, m.t);
    }
    if m.Launch? && At(s, t, Down) {
      assert OpInv(s, m.t);
      OneBodyPerKey(s, t, m.t);
    }
    if m.Touch? && At(s, t, Down) {
      StopsOwnTheirKeyAlone(s, t, m.t);
    }
    if m.Unlist? {
      assert OpInv(s, m.t);
    }
  }

  lemma StepKeepsInv(s: Sys, m: Move)
    requires Inv(s) && Enabled(s, m)
    ensures Inv(Apply(s, m))
  {
    if LockStep(m).Some? {
      LockSafety.StepKeepsInv(s.lock, LockStep(m).value);
    }
    forall t: nat | t < |Apply(s, m).ops| ensures OpInv(Apply(s, m), t) {
      if LockStep(m).Some? {
        LockingKeepsOp(s, m, t);
      } else {
        ActingKeepsOp(s, m, t);
      }
    }
  }

  // ---- whole runs ----

  ghost predicate IsRun(run: seq<Sys>, moves: seq<Move>) {
    && |run| == |moves| + 1
    && run[0].lock == LockState(map[], []) && run[0].ops == [] && run[0].pcs == [] && run[0].wakes == map[]
    && (forall i :: 0 <= i < |run| ==> Shaped(run[i]))
    && forall i :: 0 <= i < |moves| ==> Enabled(run[i], moves[i]) && run[i + 1] == Apply(run[i], moves[i])
  }

  lemma {:induction false} RunsKeepInv(run: seq<Sys>, moves: seq<Move>, i: nat)
    requires IsRun(run, moves) && i < |run|
    ensures Inv(run[i])
  {
    if i == 0 {
      assert forall k :: LockSafety.EntryInv(run[0].lock, k);
    } else {
      RunsKeepInv(run, moves, i - 1);
      StepKeepsInv(run[i - 1], moves[i - 1]);
    }
  }

  /** Whenever a wake starts a container, on any of the doors, the intent recorded at that moment is
      `running`. */
  lemma WakesObeyIntent(run: seq<Sys>, moves: seq<Move>, i: nat)
    requires IsRun(run, moves) && i < |moves| && moves[i].Launch?
    ensures var t := moves[i].t;
      && !run[i].ops[t].OtherOp? && IntentOf(run[i], run[i].ops[t].key) == Desired.Running
      && run[i + 1].up == run[i].up + {run[i].ops[t].key} && run[i + 1].intent == run[i].intent
  {
    RunsKeepInv(run, moves, i);
    assert OpInv(run[i], moves[i].t);
    assert run[i + 1] == Apply(run[i], moves[i]);
  }

  // ---- whom a request joins ----

  /** The wake on the map for `k` is under way: a wake of `k`, or an operation that makes one in place. */
  ghost predicate ListedIsLive(s: Sys, k: Key)
    requires Shaped(s) && k in s.wakes
  {
    var t := s.wakes[k];
    && LockSafety.Live(s.lock, t) && !s.ops[t].OtherOp? && s.ops[t].key == k
    && (s.ops[t].Wake? || s.ops[t].AlwaysOnWake? || s.ops[t].StartOp?)
  }

  ghost predicate AllListedLive(s: Sys)
    requires Shaped(s)
  {
    forall k :: k in s.wakes ==> ListedIsLive(s, k)
  }

  lemma StepKeepsListedLive(s: Sys, m: Move)
    requires Inv(s) && Enabled(s, m) && AllListedLive(s)
    ensures Shaped(Apply(s, m)) && AllListedLive(Apply(s, m))
  {
    StepKeepsInv(s, m);
    var s' := Apply(s, m);
    forall k | k in s'.wakes ensures ListedIsLive(s', k) {
      if k in s.wakes { assert ListedIsLive(s, k); }
      if m.End? {
        assert OpInv(s, m.t);
      }
    }
  }

  /** A request that finds a wake to join joins one that is under way: none is left on the map once it has
      ended, so nobody waits for one that is over. */
  lemma {:induction false} JoinedWakeIsLive(run: seq<Sys>, moves: seq<Move>, i: nat, k: Key)
    requires IsRun(run, moves) && i < |run| && k in run[i].wakes
    ensures ListedIsLive(run[i], k)
  {
    RunsKeepListedLive(run, moves, i);
  }

  lemma {:induction false} RunsKeepListedLive(run: seq<Sys>, moves: seq<Move>, i: nat)
    requires IsRun(run, moves) && i < |run|
    ensures AllListedLive(run[i])
  {
    if i > 0 {
      RunsKeepListedLive(run, moves, i - 1);
      RunsKeepInv(run, moves, i - 1);
      StepKeepsListedLive(run[i - 1], moves[i - 1]);
    }
  }

  /** Once a wake made in place is off the map, the next request makes one of its own, queued behind the
      operation if that still runs. */
  lemma NextRequestQueues(s: Sys, t: nat)
    requires Inv(s) && Enabled(s, Unlist(t)) && IntentOf(s, s.ops[t].key) == Desired.Running
    ensures var k, s' := s.ops[t].key, Apply(s, Unlist(t));
      Enabled(s', Request(k)) && Apply(s', Request(k)).wakes[k] == |s.lock.tickets|
  {
    assert {s.ops[t].key} != {};
  }

  /** Singleflight: all the requests that find a service asleep share one wake. */
  lemma OneWakePerKey(run: seq<Sys>, moves: seq<Move>, i: nat, t: nat, u: nat)
    requires IsRun(run, moves) && i < |run|
    requires LockSafety.Live(run[i].lock, t) && LockSafety.Live(run[i].lock, u)
    requires run[i].ops[t].Wake? && run[i].ops[u].Wake? && run[i].ops[t].key == run[i].ops[u].key
    ensures t == u
  {
    RunsKeepInv(run, moves, i);
    assert OpInv(run[i], t) && OpInv(run[i], u);
  }

  /** A wake made inside an operation that owns the key runs in place and joins no other: a wake of that
      key found in the map is still queued, behind this very operation, and is none of its children, so
      the operation neither waits for it nor is kept from ending by it. */
  lemma InlineWakeJoinsNobody(run: seq<Sys>, moves: seq<Move>, i: nat, t: nat, w: nat)
    requires IsRun(run, moves) && i < |run| && LockSafety.Runs(run[i].lock, t)
    requires run[i].ops[t].StartOp? || run[i].ops[t].AlwaysOnWake?
    requires LockSafety.Live(run[i].lock, w) && run[i].ops[w] == Wake(run[i].ops[t].key)
    ensures run[i].lock.tickets[w].phase == Waiting && !LockSafety.ChildOf(run[i].lock, w, t)
    ensures At(run[i], t, Cleared) ==> Enabled(run[i], Launch(t))
    ensures !Ready(run[i].lock, w)
  {
    var s := run[i];
    RunsKeepInv(run, moves, i);
    assert OpInv(s, t) && OpInv(s, w);
    if LockSafety.Runs(s.lock, w) {
      OneBodyPerKey(s, t, w);
    }
    LockSafety.ReadyIffPredecessorsDone(s.lock, w);
    LockSafety.ReadyIffPredecessorsDone(s.lock, t);
    assert LockSafety.TicketInv(s.lock, t);
    assert LockSafety.Takes(s.lock, t, s.ops[t].key) && LockSafety.Takes(s.lock, w, s.ops[t].key);
  }

  /** Not an explicit order to bring `k` up: no `lifecycle start` of it, and no other operation that
      owns it (a deploy) starting its container. */
  predicate NoOrder(s: Sys, m: Move, k: Key)
    requires Shaped(s)
  {
    match m
    case Record(t) => t < |s.ops| && !s.ops[t].OtherOp? && s.ops[t].key == k ==> !s.ops[t].StartOp?
    case Touch(_, key, on) => key == k ==> !on
    case _ => true
  }

  ghost predicate StaysDown(s: Sys, k: Key) {
    IntentOf(s, k) != Desired.Running && k !in s.up
  }

  lemma StepLeavesItDown(s: Sys, m: Move, k: Key)
    requires Inv(s) && Enabled(s, m) && StaysDown(s, k) && NoOrder(s, m, k)
    ensures StaysDown(Apply(s, m), k)
  {
    if m.Launch? || m.Record? {
      assert OpInv(s, m.t);
    }
  }

  /** A service that is down by recorded intent stays down, and its intent stays recorded, until
      somebody orders it up: no request, sweep, or wake already on its way does. */
  lemma {:induction false} StoppedStaysStopped(run: seq<Sys>, moves: seq<Move>, i: nat, j: nat, k: Key)
    requires IsRun(run, moves) && i <= j < |run|
    requires StaysDown(run[i], k)
    requires forall x :: i <= x < j ==> NoOrder(run[x], moves[x], k)
    ensures StaysDown(run[j], k)
    decreases j
  {
    if i < j {
      StoppedStaysStopped(run, moves, i, j - 1, k);
      RunsKeepInv(run, moves, j - 1);
      StepLeavesItDown(run[j - 1], moves[j - 1], k);
    }
  }

  /** When a `lifecycle stop` writes its intent the container is down: nothing came in between, and a
      stop that failed wrote nothing. So from there on it stays down. */
  lemma StopTakesEffect(run: seq<Sys>, moves: seq<Move>, i: nat, j: nat)
    requires IsRun(run, moves) && i < j < |run| && moves[i].Record? && run[i].ops[moves[i].t].StopOp?
    requires forall x :: i < x < j ==> NoOrder(run[x], moves[x], run[i].ops[moves[i].t].key)
    ensures StaysDown(run[j], run[i].ops[moves[i].t].key)
  {
    RunsKeepInv(run, moves, i);
    assert OpInv(run[i], moves[i].t);
    StoppedStaysStopped(run, moves, i + 1, j, run[i].ops[moves[i].t].key);
  }
}
