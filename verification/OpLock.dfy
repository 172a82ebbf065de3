/**
 The operation lock of the scheduler: exclusive per service key, several keys in one acquisition,
 re-entrant inside the acquiring context, with a form that refuses instead of queueing.

 The lock has no queue. Each key holds the tail of a chain of promises; an acquisition reads the
 tails of its keys (what it waits for) and makes each of them wait for its own gate too. The model
 keeps exactly that: a chain is a value, a gate is the number of the acquisition that opened it, and
 a gate is open once that acquisition is done. That the chains behave as first-in-first-out queues,
 although an entry is deleted when its count falls to zero, is proved, not assumed.
 */
module OpLock {
  import opened Options

  type Key = string

  /** What `prev.then(() => held)` builds: it settles when `prev` has and the gate is open. */
  datatype Chain = Resolved | After(prev: Chain, gate: nat)

  datatype OpEntry = OpEntry(chain: Chain, count: int)

  datatype Phase = Waiting | Running | Done

  /** One acquisition: the keys it took itself, the keys its body owns (inherited ones included),
      the acquisition whose body made it, and the chain tails it waits for. */
  datatype Ticket = Ticket(need: set<Key>, owned: set<Key>, parent: Option<nat>, waits: map<Key, Chain>, phase: Phase)

  datatype LockState = LockState(ops: map<Key, OpEntry>, tickets: seq<Ticket>)

  // ---- what the lock's own operations compute ----

  function ChainOf(ops: map<Key, OpEntry>, k: Key): Chain {
    if k in ops then ops[k].chain else Resolved
  }

  function CountOf(ops: map<Key, OpEntry>, k: Key): int {
    if k in ops then ops[k].count else 0
  }

  function EnqueueOps(ops: map<Key, OpEntry>, gate: nat, keys: set<Key>): map<Key, OpEntry> {
    map k | k in ops.Keys + keys ::
      if k in keys then OpEntry(After(ChainOf(ops, k), gate), CountOf(ops, k) + 1) else ops[k]
  }

  function ReleaseOps(ops: map<Key, OpEntry>, keys: set<Key>): map<Key, OpEntry> {
    map k | k in ops && (k in keys ==> ops[k].count > 1) ::
      if k in keys then ops[k].(count := ops[k].count - 1) else ops[k]
  }

  function KeySet(keys: seq<Key>): set<Key> {
    set k | k in keys
  }

  function Tails(ops: map<Key, OpEntry>, keys: set<Key>): map<Key, Chain> {
    map k | k in keys :: ChainOf(ops, k)
  }

  predicate IsDone(s: LockState, t: nat) {
    t < |s.tickets| && s.tickets[t].phase == Done
  }

  predicate Settled(s: LockState, c: Chain) {
    match c
    case Resolved => true
    case After(prev, gate) => IsDone(s, gate) && Settled(s, prev)
  }

  predicate Ready(s: LockState, t: nat)
    requires t < |s.tickets|
  {
    forall k :: k in s.tickets[t].waits ==> Settled(s, s.tickets[t].waits[k])
  }

  /** The keys the async context of `parent` already owns; no context owns nothing. */
  function Inherited(s: LockState, parent: Option<nat>): set<Key> {
    if parent.Some? && parent.value < |s.tickets| then s.tickets[parent.value].owned else {}
  }

  function Acquire(s: LockState, parent: Option<nat>, keys: set<Key>): LockState {
    var need := keys - Inherited(s, parent);
    LockState(
      EnqueueOps(s.ops, |s.tickets|, need),
      s.tickets + [Ticket(need, Inherited(s, parent) + need, parent, Tails(s.ops, need), Waiting)])
  }

  function SetPhase(s: LockState, t: nat, phase: Phase): LockState
    requires t < |s.tickets|
  {
    s.(tickets := s.tickets[t := s.tickets[t].(phase := phase)])
  }

  function Finish(s: LockState, t: nat): LockState
    requires t < |s.tickets|
  {
    SetPhase(s, t, Done).(ops := ReleaseOps(s.ops, s.tickets[t].need))
  }

  lemma KeySetSnoc(keys: seq<Key>, i: nat)
    requires i < |keys|
    requires forall a, b :: 0 <= a < b < |keys| ==> keys[a] != keys[b]
    ensures KeySet(keys[..i + 1]) == KeySet(keys[..i]) + {keys[i]}
    ensures keys[i] !in KeySet(keys[..i])
  {
    assert keys[..i + 1] == keys[..i] + [keys[i]];
  }

  /** Extending one more key's chain. */
  lemma EnqueueOne(ops: map<Key, OpEntry>, gate: nat, keys: set<Key>, k: Key)
    requires k !in keys
    ensures EnqueueOps(ops, gate, keys + {k}) ==
      EnqueueOps(ops, gate, keys)[k := OpEntry(After(ChainOf(ops, k), gate), CountOf(ops, k) + 1)]
    ensures ChainOf(EnqueueOps(ops, gate, keys), k) == ChainOf(ops, k)
    ensures CountOf(EnqueueOps(ops, gate, keys), k) == CountOf(ops, k)
    ensures Tails(ops, keys + {k}) == Tails(ops, keys)[k := ChainOf(ops, k)]
  {
  }

  // ---- the class the daemon runs ----

  class Lock {
    var ops: map<Key, OpEntry>
    var tickets: seq<Ticket>

    ghost function State(): LockState
      reads this
    {
      LockState(ops, tickets)
    }

    constructor ()
      ensures State() == LockState(map[], [])
    {
      ops, tickets := map[], [];
    }

    /** De-duplicates the requested keys and drops the inherited ones. */
    method Needed(keys: seq<Key>, inherited: set<Key>) returns (need: seq<Key>)
      ensures forall k :: k in need <==> k in keys && k !in inherited
      ensures forall i, j :: 0 <= i < j < |need| ==> need[i] != need[j]
    {
      need := [];
      for i := 0 to |keys|
        invariant forall k :: k in need <==> k in keys[..i] && k !in inherited
        invariant forall a, b :: 0 <= a < b < |need| ==> need[a] != need[b]
      {
        if keys[i] !in inherited && keys[i] !in need {
          need := need + [keys[i]];
        }
      }
      assert keys[..|keys|] == keys;
    }

    /** Extends every named key's chain with one gate, in whatever order the keys come. */
    method Enqueue(need: seq<Key>, inherited: set<Key>, parent: Option<nat>) returns (ticket: nat)
      requires forall i, j :: 0 <= i < j < |need| ==> need[i] != need[j]
      modifies this
      ensures ticket == old(|tickets|)
      ensures ops == EnqueueOps(old(ops), ticket, KeySet(need))
      ensures tickets == old(tickets) +
        [Ticket(KeySet(need), inherited + KeySet(need), parent, Tails(old(ops), KeySet(need)), Waiting)]
    {
      ticket := |tickets|;
      var waits: map<Key, Chain> := map[];
      ghost var before := ops;
      for i := 0 to |need|
        modifies this`ops
        invariant ops == EnqueueOps(before, ticket, KeySet(need[..i]))
        invariant waits == Tails(before, KeySet(need[..i]))
      {
        var key := need[i];
        KeySetSnoc(need, i);
        EnqueueOne(before, ticket, KeySet(need[..i]), key);
        var prev := if key in ops then ops[key].chain else Resolved;
        waits := waits[key := prev];
        ops := ops[key := OpEntry(After(prev, ticket), (if key in ops then ops[key].count else 0) + 1)];
      }
      assert need[..|need|] == need;
      var keys := set k | k in need;
      tickets := tickets + [Ticket(keys, inherited + keys, parent, waits, Waiting)];
    }

    /** `withOp` up to its first await. `None` says the context owns every key already, so the body
        runs in place with no acquisition of its own. */
    method WithOp(parent: Option<nat>, keys: seq<Key>) returns (ticket: Option<nat>)
      requires parent.Some? ==> parent.value < |tickets|
      modifies this
      ensures var asked := KeySet(keys);
        if asked <= Inherited(old(State()), parent) then ticket == None && State() == old(State())
        else ticket == Some(old(|tickets|)) && State() == Acquire(old(State()), parent, asked)
    {
      var inherited := if parent.Some? then tickets[parent.value].owned else {};
      var need := Needed(keys, inherited);
      if |need| == 0 {
        return None;
      }
      assert need[0] in need;
      var t := Enqueue(need, inherited, parent);
      assert KeySet(need) == KeySet(keys) - inherited;
      ticket := Some(t);
    }

    /** `tryWithOp`: refuses (`granted` false) when any needed key is held or queued. */
    method TryWithOp(parent: Option<nat>, keys: seq<Key>) returns (granted: bool, ticket: Option<nat>)
      requires parent.Some? ==> parent.value < |tickets|
      modifies this
      ensures granted <==> forall k :: k in keys && k !in Inherited(old(State()), parent) ==> CountOf(old(ops), k) <= 0
      ensures !granted ==> ticket == None && State() == old(State())
      ensures granted ==> var asked := KeySet(keys);
        if asked <= Inherited(old(State()), parent) then ticket == None && State() == old(State())
        else ticket == Some(old(|tickets|)) && State() == Acquire(old(State()), parent, asked)
    {
      var inherited := if parent.Some? then tickets[parent.value].owned else {};
      var need := Needed(keys, inherited);
      for i := 0 to |need|
        invariant State() == old(State())
        invariant forall j :: 0 <= j < i ==> CountOf(ops, need[j]) <= 0
      {
        if need[i] in ops && ops[need[i]].count > 0 {
          assert need[i] in need;
          return false, None;
        }
      }
      granted := true;
      ticket := WithOp(parent, keys);
    }

    /** Runs the body of a queued acquisition once every predecessor has finished. */
    method Begin(t: nat)
      requires t < |tickets| && tickets[t].phase == Waiting && Ready(State(), t)
      modifies this
      ensures State() == SetPhase(old(State()), t, Running)
    {
      tickets := tickets[t := tickets[t].(phase := Running)];
    }

    /** The `finally` of `withOp`: the same on success and on failure. */
    method End(t: nat, need: seq<Key>)
      requires t < |tickets| && tickets[t].phase == Running
      requires KeySet(need) == tickets[t].need
      requires forall i, j :: 0 <= i < j < |need| ==> need[i] != need[j]
      modifies this
      ensures State() == Finish(old(State()), t)
    {
      tickets := tickets[t := tickets[t].(phase := Done)];
      ghost var before := ops;
      for i := 0 to |need|
        invariant tickets == old(tickets)[t := old(tickets)[t].(phase := Done)]
        invariant ops == ReleaseOps(before, KeySet(need[..i]))
      {
        var key := need[i];
        KeySetSnoc(need, i);
        if key in ops {
          var count := ops[key].count - 1;
          ops := if count <= 0 then ops - {key} else ops[key := ops[key].(count := count)];
        }
      }
      assert need[..|need|] == need;
    }
  }
}
