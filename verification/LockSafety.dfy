/**
 Safety of the operation lock over every interleaving of acquiring, refusing, running, nesting,
 finishing and failing.
 */
module LockSafety {
  import opened Options
  import opened OpLock

  // ---- the steps a daemon can take ----

  /** `parent` is the acquisition whose body makes the call. A finished body makes none, and a body
      finishes only after the calls it made have: every caller in the daemon awaits them. */
  datatype Step =
    | Take(parent: Option<nat>, keys: set<Key>, refuseIfBusy: bool)
    | Start(ticket: nat)
    | Stop(ticket: nat)

  predicate Live(s: LockState, t: nat) {
    t < |s.tickets| && s.tickets[t].phase != Done
  }

  predicate Runs(s: LockState, t: nat) {
    t < |s.tickets| && s.tickets[t].phase == Running
  }

  predicate ChildOf(s: LockState, c: nat, t: nat) {
    c < |s.tickets| && s.tickets[c].parent == Some(t)
  }

  ghost predicate Enabled(s: LockState, step: Step) {
    match step
    case Take(parent, keys, refuseIfBusy) =>
      && (parent.Some? ==> Runs(s, parent.value))
      && !(keys <= Inherited(s, parent))
      && (refuseIfBusy ==> forall k :: k in keys - Inherited(s, parent) ==> CountOf(s.ops, k) <= 0)
    case Start(t) => t < |s.tickets| && s.tickets[t].phase == Waiting && Ready(s, t)
    case Stop(t) => Runs(s, t) && forall c :: ChildOf(s, c, t) ==> !Live(s, c)
  }

  ghost function Apply(s: LockState, step: Step): LockState
    requires Enabled(s, step)
  {
    match step
    case Take(parent, keys, _) => Acquire(s, parent, keys)
    case Start(t) => SetPhase(s, t, Running)
    case Stop(t) => Finish(s, t)
  }

  // ---- the invariant ----

  function Gates(c: Chain): set<nat> {
    match c
    case Resolved => {}
    case After(prev, gate) => Gates(prev) + {gate}
  }

  predicate Takes(s: LockState, t: nat, k: Key) {
    t < |s.tickets| && k in s.tickets[t].need
  }

  function Pending(s: LockState, k: Key): set<nat> {
    set t: nat | t < |s.tickets| && k in s.tickets[t].need && s.tickets[t].phase != Done
  }

  /** Chain `c` of key `k` stands for the first `n` acquisitions: it holds only gates of those that
      took `k`, and the ones it has forgotten (with a deleted entry) are all done. */
  ghost predicate Covers(s: LockState, c: Chain, k: Key, n: nat) {
    && (forall g :: g in Gates(c) ==> g < n && Takes(s, g, k))
    && (forall u: nat :: u < n && Takes(s, u, k) ==> u in Gates(c) || IsDone(s, u))
  }

  ghost predicate EntryInv(s: LockState, k: Key) {
    && (k in s.ops <==> Pending(s, k) != {})
    && (k in s.ops ==> s.ops[k].count == |Pending(s, k)| && Covers(s, s.ops[k].chain, k, |s.tickets|))
  }

  ghost predicate TicketInv(s: LockState, t: nat)
    requires t < |s.tickets|
  {
    var tk := s.tickets[t];
    && tk.waits.Keys == tk.need
    && tk.need != {}
    && (forall k :: k in tk.need ==> Covers(s, tk.waits[k], k, t))
    && (tk.phase != Waiting ==> Ready(s, t))
    && match tk.parent
       case None => tk.owned == tk.need
       case Some(p) =>
         && p < t
         && tk.owned == s.tickets[p].owned + tk.need
         && tk.need !! s.tickets[p].owned
         && (tk.phase != Done ==> s.tickets[p].phase == Running)
  }

  ghost predicate Inv(s: LockState) {
    && (forall k :: EntryInv(s, k))
    && (forall t: nat :: t < |s.tickets| ==> TicketInv(s, t))
  }

  // ---- chains behave as queues ----

  lemma {:induction false} SettledIffGatesDone(s: LockState, c: Chain)
    ensures Settled(s, c) <==> forall g :: g in Gates(c) ==> IsDone(s, g)
  {
    match c
    case Resolved =>
    case After(prev, gate) => SettledIffGatesDone(s, prev);
  }

  lemma CoveredChainSettles(s: LockState, c: Chain, k: Key, n: nat)
    requires Covers(s, c, k, n)
    ensures Settled(s, c) <==> forall u: nat :: u < n && Takes(s, u, k) ==> IsDone(s, u)
  {
    SettledIffGatesDone(s, c);
  }

  /** A waiting acquisition is ready exactly when every earlier one on each of its keys is done. */
  lemma ReadyIffPredecessorsDone(s: LockState, t: nat)
    requires Inv(s) && t < |s.tickets|
    ensures Ready(s, t) <==>
      forall u: nat, k :: u < t && k in s.tickets[t].need && Takes(s, u, k) ==> IsDone(s, u)
  {
    assert TicketInv(s, t);
    forall k | k in s.tickets[t].need
      ensures Settled(s, s.tickets[t].waits[k]) <==> forall u: nat :: u < t && Takes(s, u, k) ==> IsDone(s, u)
    {
      CoveredChainSettles(s, s.tickets[t].waits[k], k, t);
    }
  }

  // ---- what every state of a run keeps ----

  /** No two running bodies hold a key both acquired themselves. */
  lemma MutualExclusion(s: LockState, t: nat, u: nat)
    requires Inv(s) && Runs(s, t) && Runs(s, u) && t != u
    ensures s.tickets[t].need !! s.tickets[u].need
  {
    var late, early := if t < u then u else t, if t < u then t else u;
    assert TicketInv(s, late);
    ReadyIffPredecessorsDone(s, late);
    forall k | k in s.tickets[late].need ensures k !in s.tickets[early].need {
      assert Takes(s, late, k);
      assert Takes(s, early, k) ==> IsDone(s, early);
    }
  }

  /** Each key is granted in the order it was asked for: one that has begun has every earlier
      acquisition of that key behind it. */
  lemma GrantedInOrder(s: LockState, early: nat, late: nat, k: Key)
    requires Inv(s) && early < late < |s.tickets|
    requires Takes(s, early, k) && Takes(s, late, k) && s.tickets[late].phase != Waiting
    ensures IsDone(s, early)
  {
    assert TicketInv(s, late);
    ReadyIffPredecessorsDone(s, late);
  }

  /** A key no entry names is held and wanted by nobody, so deleting an entry at zero loses nothing. */
  lemma CountIsHoldersPlusWaiters(s: LockState, k: Key)
    requires Inv(s)
    ensures CountOf(s.ops, k) == |set t: nat | t < |s.tickets| && Live(s, t) && Takes(s, t, k)|
  {
    assert EntryInv(s, k);
    assert Pending(s, k) == set t: nat | t < |s.tickets| && Live(s, t) && Takes(s, t, k);
  }

  /** The acquisition that gave a running body one of the keys it owns. */
  ghost predicate Acquirer(s: LockState, a: nat, t: nat, k: Key)
    decreases t
  {
    t < |s.tickets| &&
    if k in s.tickets[t].need then a == t
    else s.tickets[t].parent.Some? && s.tickets[t].parent.value < t && Acquirer(s, a, s.tickets[t].parent.value, k)
  }

  lemma {:induction false} OwnedKeyHasRunningAcquirer(s: LockState, t: nat, k: Key) returns (a: nat)
    requires Inv(s) && Runs(s, t) && k in s.tickets[t].owned
    ensures Acquirer(s, a, t, k) && Runs(s, a) && Takes(s, a, k)
    decreases t
  {
    assert TicketInv(s, t);
    if k in s.tickets[t].need {
      a := t;
    } else {
      a := OwnedKeyHasRunningAcquirer(s, s.tickets[t].parent.value, k);
    }
  }

  /** Two running bodies that own the same key own it through the same acquisition: one of them is
      nested in the other, or both in a third. Re-entrancy opens no second way in. */
  lemma SharedKeyHasOneAcquirer(s: LockState, t: nat, u: nat, k: Key) returns (a: nat)
    requires Inv(s) && Runs(s, t) && Runs(s, u)
    requires k in s.tickets[t].owned && k in s.tickets[u].owned
    ensures Acquirer(s, a, t, k) && Acquirer(s, a, u, k)
  {
    a := OwnedKeyHasRunningAcquirer(s, t, k);
    var b := OwnedKeyHasRunningAcquirer(s, u, k);
    assert k in s.tickets[a].need && k in s.tickets[b].need;
    if a != b {
      MutualExclusion(s, a, b);
    }
  }

  /** A `tryWithOp` that is granted never waits: its body can run at once. */
  lemma GrantedTryIsReady(s: LockState, parent: Option<nat>, keys: set<Key>)
    requires Inv(s) && Enabled(s, Take(parent, keys, true))
    ensures Ready(Acquire(s, parent, keys), |s.tickets|)
  {
    var s' := Acquire(s, parent, keys);
    forall k | k in s'.tickets[|s.tickets|].waits
      ensures Settled(s', s'.tickets[|s.tickets|].waits[k])
    {
      assert EntryInv(s, k);
      assert CountOf(s.ops, k) <= 0;
      assert Pending(s, k) != {} <==> |Pending(s, k)| > 0;
    }
  }

  // ---- every step keeps the invariant ----

  /** Done is for ever, so a chain that covers keeps covering while acquisitions only progress. */
  lemma CoversIsKept(s: LockState, s': LockState, c: Chain, k: Key, n: nat)
    requires Covers(s, c, k, n) && n <= |s.tickets| <= |s'.tickets|
    requires forall t: nat :: t < |s.tickets| ==> s'.tickets[t].need == s.tickets[t].need
    requires forall t: nat :: IsDone(s, t) ==> IsDone(s', t)
    ensures Covers(s', c, k, n)
  {
    forall g | g in Gates(c) ensures g < n && Takes(s', g, k) {
      assert Takes(s, g, k);
    }
    forall u: nat | u < n && Takes(s', u, k) ensures u in Gates(c) || IsDone(s', u) {
      assert Takes(s, u, k);
    }
  }

  lemma {:induction false} SettledIsKept(s: LockState, s': LockState, c: Chain)
    requires Settled(s, c)
    requires forall t: nat :: IsDone(s, t) ==> IsDone(s', t)
    ensures Settled(s', c)
  {
    match c
    case Resolved =>
    case After(prev, gate) => SettledIsKept(s, s', prev);
  }

  lemma ReadyIsKept(s: LockState, s': LockState, t: nat)
    requires t < |s.tickets| && t < |s'.tickets| && Ready(s, t)
    requires s'.tickets[t].waits == s.tickets[t].waits
    requires forall u: nat :: IsDone(s, u) ==> IsDone(s', u)
    ensures Ready(s', t)
  {
    forall k | k in s.tickets[t].waits ensures Settled(s', s.tickets[t].waits[k]) {
      SettledIsKept(s, s', s.tickets[t].waits[k]);
    }
  }

  lemma TakenEntryIsKept(s: LockState, s': LockState, k: Key)
    requires EntryInv(s, k)
    requires |s'.tickets| == |s.tickets| + 1 && s'.tickets[..|s.tickets|] == s.tickets
    requires k in s'.tickets[|s.tickets|].need && s'.tickets[|s.tickets|].phase == Waiting
    requires k in s'.ops && s'.ops[k] == OpEntry(After(ChainOf(s.ops, k), |s.tickets|), CountOf(s.ops, k) + 1)
    ensures EntryInv(s', k)
  {
    var n := |s.tickets|;
    forall t: nat | t < n ensures s'.tickets[t] == s.tickets[t] {
      assert s'.tickets[..n][t] == s'.tickets[t];
    }
    PendingAfterTake(s, s', k);
    if k in s.ops {
      CoversIsKept(s, s', s.ops[k].chain, k, n);
    } else {
      FreeKeyIsCoveredByNothing(s, s', k, n);
    }
    GateExtendsCover(s', ChainOf(s.ops, k), k, n);
  }

  lemma GateExtendsCover(s: LockState, c: Chain, k: Key, n: nat)
    requires Covers(s, c, k, n) && Takes(s, n, k)
    ensures Covers(s, After(c, n), k, n + 1)
  {
    forall u: nat | u < n + 1 && Takes(s, u, k) ensures u in Gates(After(c, n)) || IsDone(s, u) {
      if u < n {
        assert u in Gates(c) || IsDone(s, u);
      }
    }
  }

  lemma PendingAfterTake(s: LockState, s': LockState, k: Key)
    requires |s'.tickets| == |s.tickets| + 1 && s'.tickets[..|s.tickets|] == s.tickets
    requires k in s'.tickets[|s.tickets|].need && s'.tickets[|s.tickets|].phase == Waiting
    ensures Pending(s', k) == Pending(s, k) + {|s.tickets|} && |Pending(s', k)| == |Pending(s, k)| + 1
  {
    forall t: nat | t < |s.tickets| ensures s'.tickets[t] == s.tickets[t] {
      assert s'.tickets[..|s.tickets|][t] == s'.tickets[t];
    }
    assert Pending(s', k) == Pending(s, k) + {|s.tickets|};
  }

  lemma FreeKeyIsCoveredByNothing(s: LockState, s': LockState, k: Key, n: nat)
    requires Pending(s, k) == {} && n == |s.tickets| < |s'.tickets|
    requires forall t: nat :: t < n ==> s'.tickets[t] == s.tickets[t]
    ensures Covers(s', Resolved, k, n)
  {
    forall u: nat | u < n && Takes(s', u, k) ensures IsDone(s', u) {
      assert u !in Pending(s, k);
    }
  }

  lemma TakeKeepsOtherEntry(s: LockState, parent: Option<nat>, keys: set<Key>, k: Key)
    requires EntryInv(s, k) && k !in keys - Inherited(s, parent)
    ensures EntryInv(Acquire(s, parent, keys), k)
  {
    var s' := Acquire(s, parent, keys);
    assert Pending(s', k) == Pending(s, k);
    if k in s.ops {
      CoversIsKept(s, s', s.ops[k].chain, k, |s.tickets|);
    }
  }

  lemma TakeKeepsTicket(s: LockState, parent: Option<nat>, keys: set<Key>, t: nat)
    requires Inv(s) && t <= |s.tickets|
    requires parent.Some? ==> Runs(s, parent.value)
    requires !(keys <= Inherited(s, parent))
    ensures TicketInv(Acquire(s, parent, keys), t)
  {
    var s' := Acquire(s, parent, keys);
    var n := |s.tickets|;
    if t < n {
      assert TicketInv(s, t);
      forall k | k in s.tickets[t].need ensures Covers(s', s.tickets[t].waits[k], k, t) {
        CoversIsKept(s, s', s.tickets[t].waits[k], k, t);
      }
      if s.tickets[t].phase != Waiting {
        ReadyIsKept(s, s', t);
      }
    } else {
      forall k | k in s'.tickets[n].need ensures Covers(s', s'.tickets[n].waits[k], k, n) {
        assert EntryInv(s, k);
        if k in s.ops {
          CoversIsKept(s, s', s.ops[k].chain, k, n);
        } else {
          FreeKeyIsCoveredByNothing(s, s', k, n);
        }
      }
      var k :| k in keys && k !in Inherited(s, parent);
      assert k in s'.tickets[n].need;
    }
  }

  lemma StartKeepsInv(s: LockState, t: nat)
    requires Inv(s) && Enabled(s, Start(t))
    ensures Inv(SetPhase(s, t, Running))
  {
    var s' := SetPhase(s, t, Running);
    forall k ensures EntryInv(s', k) {
      assert EntryInv(s, k);
      assert Pending(s', k) == Pending(s, k);
      if k in s.ops {
        CoversIsKept(s, s', s.ops[k].chain, k, |s.tickets|);
      }
    }
    forall u: nat | u < |s.tickets| ensures TicketInv(s', u) {
      assert TicketInv(s, u);
      forall k | k in s.tickets[u].need ensures Covers(s', s.tickets[u].waits[k], k, u) {
        CoversIsKept(s, s', s.tickets[u].waits[k], k, u);
      }
      if s'.tickets[u].phase != Waiting {
        ReadyIsKept(s, s', u);
      }
    }
  }

  lemma StopKeepsEntry(s: LockState, t: nat, k: Key)
    requires Inv(s) && Runs(s, t)
    ensures EntryInv(Finish(s, t), k)
  {
    var s' := Finish(s, t);
    assert EntryInv(s, k);
    if k in s.tickets[t].need {
      assert t in Pending(s, k);
      assert Pending(s', k) == Pending(s, k) - {t};
      assert Pending(s', k) != {} <==> |Pending(s', k)| > 0;
    } else {
      assert Pending(s', k) == Pending(s, k);
    }
    if k in s.ops {
      CoversIsKept(s, s', s.ops[k].chain, k, |s.tickets|);
    }
  }

  lemma StopKeepsTicket(s: LockState, t: nat, u: nat)
    requires Inv(s) && Enabled(s, Stop(t)) && u < |s.tickets|
    ensures TicketInv(Finish(s, t), u)
  {
    var s' := Finish(s, t);
    assert TicketInv(s, u);
    forall k | k in s.tickets[u].need ensures Covers(s', s.tickets[u].waits[k], k, u) {
      CoversIsKept(s, s', s.tickets[u].waits[k], k, u);
    }
    if s'.tickets[u].phase != Waiting {
      assert TicketInv(s, t);
      ReadyIsKept(s, s', u);
    }
    if s.tickets[u].parent == Some(t) {
      assert ChildOf(s, u, t);
    }
  }

  lemma StepKeepsInv(s: LockState, step: Step)
    requires Inv(s) && Enabled(s, step)
    ensures Inv(Apply(s, step))
  {
    var s' := Apply(s, step);
    match step
    case Take(parent, keys, _) =>
      forall k ensures EntryInv(s', k) {
        assert EntryInv(s, k);
        if k in keys - Inherited(s, parent) {
          TakenEntryIsKept(s, s', k);
        } else {
          TakeKeepsOtherEntry(s, parent, keys, k);
        }
      }
      forall t: nat | t < |s'.tickets| ensures TicketInv(s', t) { TakeKeepsTicket(s, parent, keys, t); }
    case Start(t) =>
      StartKeepsInv(s, t);
    case Stop(t) =>
      forall k ensures EntryInv(s', k) { StopKeepsEntry(s, t, k); }
      forall u: nat | u < |s'.tickets| ensures TicketInv(s', u) { StopKeepsTicket(s, t, u); }
  }

  // ---- whole runs ----

  /** The states a sequence of steps goes through, each step enabled where it is taken. */
  ghost predicate IsRun(run: seq<LockState>, steps: seq<Step>) {
    && |run| == |steps| + 1
    && run[0] == LockState(map[], [])
    && forall i :: 0 <= i < |steps| ==> Enabled(run[i], steps[i]) && run[i + 1] == Apply(run[i], steps[i])
  }

  lemma {:induction false} RunsKeepInv(run: seq<LockState>, steps: seq<Step>, i: nat)
    requires IsRun(run, steps) && i < |run|
    ensures Inv(run[i])
  {
    if i == 0 {
      assert forall k :: EntryInv(run[0], k);
    } else {
      RunsKeepInv(run, steps, i - 1);
      StepKeepsInv(run[i - 1], steps[i - 1]);
    }
  }

  /** The lock's promise, over every run: two bodies running at the same time have no acquired key in
      common, and a body that runs has nobody ahead of it on any of its keys. */
  lemma LockIsExclusiveAndFair(run: seq<LockState>, steps: seq<Step>, i: nat, t: nat, u: nat)
    requires IsRun(run, steps) && i < |run| && Runs(run[i], t)
    ensures Runs(run[i], u) && t != u ==> run[i].tickets[t].need !! run[i].tickets[u].need
    ensures u < t && !(run[i].tickets[t].need !! run[i].tickets[u].need) ==> IsDone(run[i], u)
  {
    RunsKeepInv(run, steps, i);
    if Runs(run[i], u) && t != u {
      MutualExclusion(run[i], t, u);
    }
    if u < t && !(run[i].tickets[t].need !! run[i].tickets[u].need) {
      var k :| k in run[i].tickets[t].need && k in run[i].tickets[u].need;
      GrantedInOrder(run[i], u, t, k);
    }
  }
}
