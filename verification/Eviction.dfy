/**
 The memory-pressure pass: sleep the least recently active service, one at a time, until free memory
 is back above the floor.

 Every turn awaits a stop, and anything may happen to the box meanwhile, so the pass re-reads
 everything on every turn. `turns` is that: what turn `i` finds, whether its stop succeeds, and the
 memory sample the victim has afterwards. The proofs hold for all of them.
 */
module Eviction {
  import opened Options
  import opened OpLock
  import Intent
  import LockSafety
  import Snapshot

  datatype Kind = Compute | Postgres | Managed

  datatype Target = Target(key: Key, container: string, kind: Kind, alwaysOn: bool, desired: Intent.Desired)

  datatype Entry = Entry(lastActiveAt: nat, wokeAt: Option<nat>, rss: Option<nat>)

  datatype Memory = Memory(availableBytes: nat, totalBytes: nat)

  datatype Config = Config(ramFloorPct: real, touchDebounceMs: nat, wakeProtectSec: nat, sweepSec: nat)

  /** What the pass reads in the synchronous step that picks a victim and reserves its key. */
  datatype View = View(
    now: nat, memory: Option<Memory>, targets: seq<Target>, cache: Snapshot.Cache, ledger: map<Key, Entry>,
    lock: LockState, wakes: set<Key>, sleeping: set<Key>, holds: map<Key, nat>)

  datatype Turn = Turn(view: View, slept: bool, rssAfter: Option<nat>)

  datatype Attempt = Attempt(victim: Target, slept: bool, gained: nat)

  datatype Exit = Off | Unreadable | FloorMet | EmptyPool | GaveUp

  const EVICTION_CEILING := 10_000
  const MIB := 1024 * 1024

  function DefaultRss(kind: Kind): nat {
    match kind
    case Compute => 256 * MIB
    case Postgres => 128 * MIB
    case Managed => 256 * MIB
  }

  /** The ledger entry of a key; first sight of a service is activity now. */
  function Rec(v: View, key: Key): Entry {
    if key in v.ledger then v.ledger[key] else Entry(v.now, None, None)
  }

  predicate Busy(v: View, key: Key) {
    CountOf(v.lock.ops, key) > 0 || key in v.wakes || key in v.sleeping
  }

  predicate IsVictim(cfg: Config, v: View, t: Target, exclude: set<Key>, tried: set<Key>) {
    if t.key in exclude || t.key in tried then false
    else if !Snapshot.ObservedRunning(v.cache, t.container, v.now, Snapshot.MaxStateAge(cfg.sweepSec)) then false
    else if t.alwaysOn || !t.desired.Running? then false
    else if Busy(v, t.key) then false
    else if t.key in v.holds && v.holds[t.key] > 0 then false
    else
      var r := Rec(v, t.key);
      if v.now - r.lastActiveAt < 2 * cfg.touchDebounceMs then false
      else !(r.wokeAt.Some? && v.now - r.wokeAt.value < cfg.wakeProtectSec * 1000)
  }

  function Weight(e: Entry): nat {
    if e.rss.Some? then e.rss.value else 0
  }

  /** The order victims are taken in: least recently active first, the heavier of two equals first. */
  predicate Before(v: View, a: Target, b: Target) {
    var x, y := Rec(v, a.key), Rec(v, b.key);
    x.lastActiveAt < y.lastActiveAt || (x.lastActiveAt == y.lastActiveAt && Weight(x) > Weight(y))
  }

  /** The head of the stably sorted pool: nothing goes before it, and it goes before or comes before
      everything else. */
  function Head(v: View, pool: seq<Target>): (i: nat)
    requires pool != []
    ensures i < |pool|
    ensures forall j :: 0 <= j < |pool| ==> !Before(v, pool[j], pool[i])
    ensures forall j :: 0 <= j < i ==> Before(v, pool[i], pool[j])
  {
    var n := |pool| - 1;
    if n == 0 then 0
    else
      var i := Head(v, pool[..n]);
      assert forall j :: 0 <= j < n ==> pool[..n][j] == pool[j];
      if Before(v, pool[n], pool[i]) then n else i
  }

  function Freed(done: seq<Attempt>): nat {
    if done == [] then 0 else Freed(done[..|done| - 1]) + done[|done| - 1].gained
  }

  function Tried(done: seq<Attempt>): set<Key> {
    if done == [] then {} else Tried(done[..|done| - 1]) + {done[|done| - 1].victim.key}
  }

  function Max(a: nat, b: nat): nat {
    if a > b then a else b
  }

  function Floor(cfg: Config, first: Memory): real {
    first.totalBytes as real * (cfg.ramFloorPct / 100.0)
  }

  predicate AboveFloor(cfg: Config, first: Memory, bytes: int) {
    bytes as real >= Floor(cfg, first)
  }

  function Available(first: Memory, now: Memory, freed: nat): nat {
    Max(now.availableBytes, first.availableBytes + freed)
  }

  /** Room enough: what the runtime reports, or the pass's own baseline plus what it freed, whichever
      is larger; never both. */
  predicate Roomy(cfg: Config, need: nat, first: Memory, now: Memory, freed: nat) {
    AboveFloor(cfg, first, Available(first, now, freed) - need)
  }

  /** The victims a turn may choose from. */
  predicate Eligible(cfg: Config, v: View, t: Target, exclude: set<Key>, tried: set<Key>) {
    t in v.targets && IsVictim(cfg, v, t, exclude, tried)
  }

  /** The pool of a turn, in listing order. */
  function PoolOf(cfg: Config, v: View, targets: seq<Target>, exclude: set<Key>, tried: set<Key>): seq<Target> {
    if targets == [] then []
    else
      var n := |targets| - 1;
      var rest := PoolOf(cfg, v, targets[..n], exclude, tried);
      if IsVictim(cfg, v, targets[n], exclude, tried) then rest + [targets[n]] else rest
  }

  /** The attempt after `done` was forced (too little room by every account) and took the head of the
      turn's pool. */
  predicate Justified(cfg: Config, need: nat, exclude: set<Key>, first: Memory, turn: Turn, done: seq<Attempt>, a: Attempt) {
    var v, pool := turn.view, PoolOf(cfg, turn.view, turn.view.targets, exclude, Tried(done));
    && v.memory.Some? && !Roomy(cfg, need, first, v.memory.value, Freed(done))
    && pool != [] && a.victim == pool[Head(v, pool)]
    && a.slept == turn.slept
    && a.gained == (if !a.slept then 0 else if turn.rssAfter.Some? then turn.rssAfter.value else DefaultRss(a.victim.kind))
  }

  predicate AllJustified(cfg: Config, need: nat, exclude: set<Key>, first: Memory, turns: nat -> Turn, done: seq<Attempt>) {
    forall i :: 0 <= i < |done| ==> Justified(cfg, need, exclude, first, turns(i), done[..i], done[i])
  }

  method Pool(cfg: Config, v: View, exclude: set<Key>, tried: set<Key>) returns (pool: seq<Target>)
    ensures pool == PoolOf(cfg, v, v.targets, exclude, tried)
  {
    pool := [];
    for i := 0 to |v.targets|
      invariant pool == PoolOf(cfg, v, v.targets[..i], exclude, tried)
    {
      assert v.targets[..i + 1][..i] == v.targets[..i];
      if IsVictim(cfg, v, v.targets[i], exclude, tried) {
        pool := pool + [v.targets[i]];
      }
    }
    assert v.targets[..|v.targets|] == v.targets;
  }

  lemma {:induction false} PoolHas(cfg: Config, v: View, targets: seq<Target>, exclude: set<Key>, tried: set<Key>, t: Target)
    ensures t in PoolOf(cfg, v, targets, exclude, tried) <==> t in targets && IsVictim(cfg, v, t, exclude, tried)
    decreases |targets|
  {
    if targets != [] {
      var n := |targets| - 1;
      PoolHas(cfg, v, targets[..n], exclude, tried, t);
      assert targets == targets[..n] + [targets[n]];
    }
  }

  lemma {:induction false} TriedHas(done: seq<Attempt>, k: Key)
    ensures k in Tried(done) <==> TriedBefore(done, k)
    decreases |done|
  {
    if done != [] {
      var n := |done| - 1;
      TriedHas(done[..n], k);
      assert forall i :: 0 <= i < n ==> done[..n][i] == done[i];
    }
  }

  // ---- fairness, told over the ledger, the lock and the snapshot themselves ----

  /** That many bytes, less what is needed, are as much of the box's memory as is to stay free. */
  predicate Enough(cfg: Config, need: nat, first: Memory, bytes: nat) {
    (bytes - need) as real >= Floor(cfg, first)
  }

  /** The floor is that many hundredths of the box. */
  lemma FloorIsAShare(cfg: Config, first: Memory)
    ensures 100.0 * Floor(cfg, first) == cfg.ramFloorPct * first.totalBytes as real
  {
    assert Floor(cfg, first) == first.totalBytes as real * cfg.ramFloorPct / 100.0;
  }

  /** Either account will do: what the runtime reports now, or the pass's baseline with what it freed. */
  lemma RoomyMeans(cfg: Config, need: nat, first: Memory, now: Memory, freed: nat)
    ensures Roomy(cfg, need, first, now, freed) <==>
      Enough(cfg, need, first, now.availableBytes) || Enough(cfg, need, first, first.availableBytes + freed)
  {
  }

  /** When a service was last active; one the ledger has not seen counts as active now. */
  function LastActive(v: View, key: Key): int {
    if key in v.ledger then v.ledger[key].lastActiveAt else v.now
  }

  /** Nothing speaks against putting the service to sleep in this step. */
  predicate MayBeStopped(cfg: Config, v: View, t: Target, exclude: set<Key>) {
    && t in v.targets && t.key !in exclude
    // it is known to run, by a fact no older than the freshness bound
    && t.container in v.cache && v.cache[t.container].state == Snapshot.Running
    && v.now - v.cache[t.container].at < Snapshot.MaxStateAge(cfg.sweepSec)
    // it is meant to run, but not always
    && t.desired == Intent.Desired.Running && !t.alwaysOn
    // no operation holds or awaits it, no wake or sleep of it is under way, no request or connection is on it
    && (t.key in v.lock.ops ==> v.lock.ops[t.key].count <= 0) && t.key !in v.wakes && t.key !in v.sleeping
    && (t.key in v.holds ==> v.holds[t.key] == 0)
    // neither its last activity nor its last wake is too recent
    && v.now - LastActive(v, t.key) >= 2 * cfg.touchDebounceMs
    && (t.key in v.ledger && v.ledger[t.key].wokeAt.Some? ==> v.now - v.ledger[t.key].wokeAt.value >= cfg.wakeProtectSec * 1000)
  }

  /** A service's last sample of resident memory; none counts as nothing. */
  function Sampled(v: View, key: Key): nat {
    if key in v.ledger && v.ledger[key].rss.Some? then v.ledger[key].rss.value else 0
  }

  predicate TriedBefore(done: seq<Attempt>, key: Key) {
    exists i :: 0 <= i < |done| && done[i].victim.key == key
  }

  lemma NothingStoppable(cfg: Config, v: View, exclude: set<Key>, done: seq<Attempt>)
    requires PoolOf(cfg, v, v.targets, exclude, Tried(done)) == []
    ensures forall t :: MayBeStopped(cfg, v, t, exclude) ==> TriedBefore(done, t.key)
  {
    forall t | MayBeStopped(cfg, v, t, exclude) ensures TriedBefore(done, t.key) {
      PoolHas(cfg, v, v.targets, exclude, Tried(done), t);
      EligibleIsStoppable(cfg, v, t, exclude, done);
    }
  }

  lemma EligibleIsStoppable(cfg: Config, v: View, t: Target, exclude: set<Key>, done: seq<Attempt>)
    ensures Eligible(cfg, v, t, exclude, Tried(done)) <==> MayBeStopped(cfg, v, t, exclude) && !TriedBefore(done, t.key)
  {
    TriedHas(done, t.key);
  }

  /** Where in the listing the services of the pool are. */
  function Places(cfg: Config, v: View, targets: seq<Target>, exclude: set<Key>, tried: set<Key>): (at: seq<nat>)
    ensures |at| == |PoolOf(cfg, v, targets, exclude, tried)|
    ensures forall x :: 0 <= x < |at| ==> at[x] < |targets| && targets[at[x]] == PoolOf(cfg, v, targets, exclude, tried)[x]
    ensures forall x, y :: 0 <= x < y < |at| ==> at[x] < at[y]
  {
    if targets == [] then []
    else
      var n := |targets| - 1;
      var rest := Places(cfg, v, targets[..n], exclude, tried);
      if IsVictim(cfg, v, targets[n], exclude, tried) then rest + [n] else rest
  }

  lemma {:induction false} PlacesHas(cfg: Config, v: View, targets: seq<Target>, exclude: set<Key>, tried: set<Key>, k: nat)
    requires k < |targets| && IsVictim(cfg, v, targets[k], exclude, tried)
    ensures k in Places(cfg, v, targets, exclude, tried)
    decreases |targets|
  {
    var n := |targets| - 1;
    if k < n {
      PlacesHas(cfg, v, targets[..n], exclude, tried, k);
    } else {
      var at := Places(cfg, v, targets, exclude, tried);
      assert at[|at| - 1] == k;
    }
  }

  lemma HeadIsFirst(cfg: Config, v: View, exclude: set<Key>, done: seq<Attempt>, pool: seq<Target>) returns (i: nat)
    requires pool == PoolOf(cfg, v, v.targets, exclude, Tried(done)) && pool != []
    ensures i < |v.targets| && v.targets[i] == pool[Head(v, pool)] && IsFirst(cfg, v, exclude, done, i)
    ensures MayBeStopped(cfg, v, v.targets[i], exclude) && !TriedBefore(done, v.targets[i].key)
  {
    var h, at := Head(v, pool), Places(cfg, v, v.targets, exclude, Tried(done));
    i := at[h];
    PoolHas(cfg, v, v.targets, exclude, Tried(done), pool[h]);
    EligibleIsStoppable(cfg, v, pool[h], exclude, done);
    forall k | 0 <= k < |v.targets| ensures GoesFirst(cfg, v, exclude, done, i, k) {
      EligibleIsStoppable(cfg, v, v.targets[k], exclude, done);
      if IsVictim(cfg, v, v.targets[k], exclude, Tried(done)) { PooledGoesLater(cfg, v, exclude, done, pool, at, h, k); }
    }
  }

  lemma PooledGoesLater(cfg: Config, v: View, exclude: set<Key>, done: seq<Attempt>, pool: seq<Target>, at: seq<nat>, h: nat, k: nat)
    requires pool == PoolOf(cfg, v, v.targets, exclude, Tried(done)) && pool != [] && h == Head(v, pool)
    requires at == Places(cfg, v, v.targets, exclude, Tried(done))
    requires k < |v.targets| && IsVictim(cfg, v, v.targets[k], exclude, Tried(done))
    ensures GoesFirst(cfg, v, exclude, done, at[h], k)
  {
    PlacesHas(cfg, v, v.targets, exclude, Tried(done), k);
    var x :| 0 <= x < |at| && at[x] == k;
    HeadGoesFirst(v, pool, x);
  }

  lemma HeadGoesFirst(v: View, pool: seq<Target>, x: nat)
    requires x < |pool|
    ensures var mine, other := pool[Head(v, pool)].key, pool[x].key;
      && LastActive(v, mine) <= LastActive(v, other)
      && (LastActive(v, mine) == LastActive(v, other) ==> Sampled(v, mine) >= Sampled(v, other))
      && (LastActive(v, mine) == LastActive(v, other) && Sampled(v, mine) == Sampled(v, other) ==> Head(v, pool) <= x)
  {
    assert !Before(v, pool[x], pool[Head(v, pool)]);
    if x < Head(v, pool) { assert Before(v, pool[Head(v, pool)], pool[x]); }
  }

  /** The victim could be stopped and had not been tried, and of all services of which that can be said it
      was the least recently active; of those as long idle, none is heavier; and of those as heavy too,
      none is listed before it. */
  ghost predicate Fair(cfg: Config, exclude: set<Key>, v: View, done: seq<Attempt>, victim: Target) {
    && MayBeStopped(cfg, v, victim, exclude) && !TriedBefore(done, victim.key)
    && exists i :: 0 <= i < |v.targets| && v.targets[i] == victim && IsFirst(cfg, v, exclude, done, i)
  }

  ghost predicate AllFair(cfg: Config, exclude: set<Key>, turns: nat -> Turn, done: seq<Attempt>) {
    forall i :: 0 <= i < |done| ==> Fair(cfg, exclude, turns(i).view, done[..i], done[i].victim)
  }

  lemma AllAttemptsAreFair(cfg: Config, need: nat, exclude: set<Key>, first: Memory, turns: nat -> Turn, done: seq<Attempt>)
    requires AllJustified(cfg, need, exclude, first, turns, done)
    ensures AllFair(cfg, exclude, turns, done)
  {
    forall i | 0 <= i < |done| ensures Fair(cfg, exclude, turns(i).view, done[..i], done[i].victim) {
      AttemptIsFair(cfg, need, exclude, first, turns(i), done[..i], done[i]);
    }
  }

  lemma AttemptIsFair(cfg: Config, need: nat, exclude: set<Key>, first: Memory, turn: Turn, done: seq<Attempt>, a: Attempt)
    requires Justified(cfg, need, exclude, first, turn, done, a)
    ensures Fair(cfg, exclude, turn.view, done, a.victim)
  {
    var i := HeadIsFirst(cfg, turn.view, exclude, done, PoolOf(cfg, turn.view, turn.view.targets, exclude, Tried(done)));
    assert turn.view.targets[i] == a.victim;
  }

  predicate IsFirst(cfg: Config, v: View, exclude: set<Key>, done: seq<Attempt>, i: nat)
    requires i < |v.targets|
  {
    forall k :: 0 <= k < |v.targets| ==> GoesFirst(cfg, v, exclude, done, i, k)
  }

  /** A service is put to sleep only while both accounts of free memory are short, and what a stop gains is
      the victim's own sample where there is one. */
  lemma AttemptWasForced(cfg: Config, need: nat, exclude: set<Key>, first: Memory, turn: Turn, done: seq<Attempt>, a: Attempt)
    requires Justified(cfg, need, exclude, first, turn, done, a)
    ensures turn.view.memory.Some? && !Enough(cfg, need, first, turn.view.memory.value.availableBytes)
    ensures !Enough(cfg, need, first, first.availableBytes + Freed(done))
    ensures a.slept == turn.slept && (!a.slept ==> a.gained == 0)
    ensures a.slept && turn.rssAfter.Some? ==> a.gained == turn.rssAfter.value
  {
    RoomyMeans(cfg, need, first, turn.view.memory.value, Freed(done));
  }

  /** Target `i` goes before target `k`, if `k` could go at all. */
  predicate GoesFirst(cfg: Config, v: View, exclude: set<Key>, done: seq<Attempt>, i: nat, k: nat)
    requires i < |v.targets| && k < |v.targets|
  {
    var mine, other := v.targets[i], v.targets[k];
    MayBeStopped(cfg, v, other, exclude) && !TriedBefore(done, other.key) ==>
      && LastActive(v, mine.key) <= LastActive(v, other.key)
      && (LastActive(v, mine.key) == LastActive(v, other.key) ==> Sampled(v, mine.key) >= Sampled(v, other.key))
      && (LastActive(v, mine.key) == LastActive(v, other.key) && Sampled(v, mine.key) == Sampled(v, other.key) ==> i <= k)
  }

  lemma OneMoreAttempt(done: seq<Attempt>, a: Attempt)
    ensures Freed(done + [a]) == Freed(done) + a.gained && Tried(done + [a]) == Tried(done) + {a.victim.key}
  {
    assert (done + [a])[..|done|] == done;
  }

  lemma Extended(cfg: Config, need: nat, exclude: set<Key>, first: Memory, turns: nat -> Turn, done: seq<Attempt>, a: Attempt)
    requires AllJustified(cfg, need, exclude, first, turns, done)
    requires Justified(cfg, need, exclude, first, turns(|done|), done, a)
    ensures AllJustified(cfg, need, exclude, first, turns, done + [a])
  {
    var more := done + [a];
    forall i | 0 <= i < |more| ensures Justified(cfg, need, exclude, first, turns(i), more[..i], more[i]) {
      assert more[..i] == done[..i];
      if i == |done| { assert done[..i] == done; }
    }
  }

  datatype Step = Leave(exit: Exit) | Take(attempt: Attempt)

  /** What a turn of the loop found when it ended the pass. */
  ghost predicate LeftBecause(cfg: Config, need: nat, exclude: set<Key>, first: Memory, v: View, done: seq<Attempt>, exit: Exit) {
    match exit
    case Unreadable => v.memory.None?
    case FloorMet =>
      && v.memory.Some?
      && (Enough(cfg, need, first, v.memory.value.availableBytes) || Enough(cfg, need, first, first.availableBytes + Freed(done)))
    case EmptyPool =>
      && v.memory.Some? && !Enough(cfg, need, first, v.memory.value.availableBytes)
      && !Enough(cfg, need, first, first.availableBytes + Freed(done))
      && forall t :: MayBeStopped(cfg, v, t, exclude) ==> TriedBefore(done, t.key)
    case _ => false
  }

  /** One turn of the loop. */
  method OneTurn(cfg: Config, need: nat, exclude: set<Key>, first: Memory, turn: Turn, tried: set<Key>, freed: nat, ghost done: seq<Attempt>)
    returns (step: Step)
    requires tried == Tried(done) && freed == Freed(done)
    ensures step.Leave? ==> LeftBecause(cfg, need, exclude, first, turn.view, done, step.exit)
    ensures step.Take? ==> Justified(cfg, need, exclude, first, turn, done, step.attempt)
  {
    var v := turn.view;
    if v.memory.None? {
      return Leave(Unreadable);
    }
    RoomyMeans(cfg, need, first, v.memory.value, freed);
    var available := Available(first, v.memory.value, freed);
    if AboveFloor(cfg, first, available - need) {
      return Leave(FloorMet);
    }
    var pool := Pool(cfg, v, exclude, tried);
    if |pool| == 0 {
      NothingStoppable(cfg, v, exclude, done);
      return Leave(EmptyPool);
    }
    var victim := pool[Head(v, pool)];
    var gained := if !turn.slept then 0 else if turn.rssAfter.Some? then turn.rssAfter.value else DefaultRss(victim.kind);
    step := Take(Attempt(victim, turn.slept, gained));
  }

  /** `evictForRoom`. */
  method EvictForRoom(cfg: Config, need: nat, exclude: set<Key>, first: Option<Memory>, turns: nat -> Turn)
    returns (exit: Exit, done: seq<Attempt>)
    ensures exit == Off <==> cfg.ramFloorPct <= 0.0
    ensures exit != Off && first.Some? ==> AllJustified(cfg, need, exclude, first.value, turns, done)
    ensures AllFair(cfg, exclude, turns, done)
    ensures exit == Off || first.None? ==> done == []
    ensures |done| <= EVICTION_CEILING
    ensures exit == GaveUp ==> |done| == EVICTION_CEILING
    ensures exit != Off && exit != GaveUp ==>
      if first.None? then exit == Unreadable
      else LeftBecause(cfg, need, exclude, first.value, turns(|done|).view, done, exit)
  {
    done := [];
    if cfg.ramFloorPct <= 0.0 {
      return Off, [];
    }
    if first.None? {
      return Unreadable, [];
    }
    var tried: set<Key> := {};
    var freed: nat := 0;
    for guard := 0 to EVICTION_CEILING
      invariant |done| == guard
      invariant tried == Tried(done) && freed == Freed(done)
      invariant AllJustified(cfg, need, exclude, first.value, turns, done)
    {
      var step := OneTurn(cfg, need, exclude, first.value, turns(guard), tried, freed, done);
      if step.Leave? {
        AllAttemptsAreFair(cfg, need, exclude, first.value, turns, done);
        return step.exit, done;
      }
      tried := tried + {step.attempt.victim.key};
      freed := freed + step.attempt.gained;
      Extended(cfg, need, exclude, first.value, turns, done, step.attempt);
      OneMoreAttempt(done, step.attempt);
      done := done + [step.attempt];
    }
    AllAttemptsAreFair(cfg, need, exclude, first.value, turns, done);
    exit := GaveUp;
  }

  // ---- what every pass does ----

  lemma VictimIsNew(cfg: Config, need: nat, exclude: set<Key>, first: Memory, turn: Turn, done: seq<Attempt>, a: Attempt)
    requires Justified(cfg, need, exclude, first, turn, done, a)
    ensures a.victim in turn.view.targets && a.victim.key !in Tried(done)
  {
    PoolHas(cfg, turn.view, turn.view.targets, exclude, Tried(done), a.victim);
  }

  /** No service is tried twice. */
  lemma NeverTwice(cfg: Config, need: nat, exclude: set<Key>, first: Memory, turns: nat -> Turn, done: seq<Attempt>, i: nat, j: nat)
    requires AllJustified(cfg, need, exclude, first, turns, done) && i < j < |done|
    ensures done[i].victim.key != done[j].victim.key
  {
    assert Justified(cfg, need, exclude, first, turns(j), done[..j], done[j]);
    VictimIsNew(cfg, need, exclude, first, turns(j), done[..j], done[j]);
    assert done[..j][i] == done[i];
    TriedHas(done[..j], done[i].victim.key);
  }

  lemma PrefixJustified(cfg: Config, need: nat, exclude: set<Key>, first: Memory, turns: nat -> Turn, done: seq<Attempt>, n: nat)
    requires AllJustified(cfg, need, exclude, first, turns, done) && n <= |done|
    ensures AllJustified(cfg, need, exclude, first, turns, done[..n])
  {
    forall i | 0 <= i < n ensures Justified(cfg, need, exclude, first, turns(i), done[..n][..i], done[..n][i]) {
      assert done[..n][..i] == done[..i];
    }
  }

  lemma {:induction false} DistinctVictims(cfg: Config, need: nat, exclude: set<Key>, first: Memory, turns: nat -> Turn, done: seq<Attempt>)
    requires AllJustified(cfg, need, exclude, first, turns, done)
    ensures |Tried(done)| == |done|
    decreases |done|
  {
    if done != [] {
      var n := |done| - 1;
      PrefixJustified(cfg, need, exclude, first, turns, done, n);
      DistinctVictims(cfg, need, exclude, first, turns, done[..n]);
      assert Justified(cfg, need, exclude, first, turns(n), done[..n], done[n]);
      VictimIsNew(cfg, need, exclude, first, turns(n), done[..n], done[n]);
    }
  }

  lemma Fits<T>(small: set<T>, large: set<T>)
    requires small <= large
    ensures |small| <= |large|
  {
    assert large == small + (large - small);
  }

  /** The ceiling is a guard and nothing else: while fewer services than that have ever been there to
      choose from, a pass ends for one of the other reasons. */
  lemma CeilingIsNeverTheReason(cfg: Config, need: nat, exclude: set<Key>, first: Memory, turns: nat -> Turn,
    done: seq<Attempt>, known: set<Key>)
    requires AllJustified(cfg, need, exclude, first, turns, done)
    requires forall i, t :: 0 <= i < |done| && t in turns(i).view.targets ==> t.key in known
    requires |known| < EVICTION_CEILING
    ensures |done| < EVICTION_CEILING
  {
    DistinctVictims(cfg, need, exclude, first, turns, done);
    forall k | k in Tried(done) ensures k in known {
      TriedHas(done, k);
      var i :| 0 <= i < |done| && done[i].victim.key == k;
      assert Justified(cfg, need, exclude, first, turns(i), done[..i], done[i]);
      VictimIsNew(cfg, need, exclude, first, turns(i), done[..i], done[i]);
    }
    Fits(Tried(done), known);
  }

  /** A pass never overshoots by more than its last victim: without that one it was still short, even
      by its own account of what it had freed. */
  lemma NoMoreThanNeeded(cfg: Config, need: nat, exclude: set<Key>, first: Memory, turns: nat -> Turn, done: seq<Attempt>)
    requires AllJustified(cfg, need, exclude, first, turns, done) && done != []
    ensures (first.availableBytes + Freed(done) - done[|done| - 1].gained - need) as real < Floor(cfg, first)
  {
    var n := |done| - 1;
    assert Justified(cfg, need, exclude, first, turns(n), done[..n], done[n]);
  }

  /** The stop of an eligible victim takes its key there and then: nobody holds or waits for it, the
      non-blocking acquisition is granted, and its body can start at once, even inside an operation
      (a wake making room) that owns other keys. */
  lemma VictimIsReservedAtOnce(cfg: Config, v: View, t: Target, exclude: set<Key>, tried: set<Key>, parent: Option<nat>)
    requires LockSafety.Inv(v.lock) && (parent.Some? ==> LockSafety.Runs(v.lock, parent.value))
    requires Eligible(cfg, v, t, exclude, tried)
    ensures t.key !in Inherited(v.lock, parent)
    ensures LockSafety.Enabled(v.lock, LockSafety.Take(parent, {t.key}, true))
    ensures Ready(Acquire(v.lock, parent, {t.key}), |v.lock.tickets|)
    ensures forall u: nat :: LockSafety.Live(v.lock, u) ==> t.key !in v.lock.tickets[u].need
  {
    forall u: nat | LockSafety.Live(v.lock, u) ensures t.key !in v.lock.tickets[u].need {
      LockSafety.CountIsHoldersPlusWaiters(v.lock, t.key);
      var takers := set x: nat | x < |v.lock.tickets| && LockSafety.Live(v.lock, x) && LockSafety.Takes(v.lock, x, t.key);
      assert takers == {};
      assert u !in takers;
    }
    if t.key in Inherited(v.lock, parent) {
      var _ := LockSafety.OwnedKeyHasRunningAcquirer(v.lock, parent.value, t.key);
    }
    assert {t.key} - Inherited(v.lock, parent) == {t.key};
    LockSafety.GrantedTryIsReady(v.lock, parent, {t.key});
  }

  /** A victim was really running within the freshness bound, whatever the box has been doing. */
  lemma VictimWasRunning(cfg: Config, h: Snapshot.History, events: seq<Snapshot.Event>, v: View, t: Target,
    exclude: set<Key>, tried: set<Key>)
    requires Snapshot.IsRun(h, Snapshot.View(0, map[]), events)
    requires Snapshot.Final(h, Snapshot.View(0, map[]), events) == Snapshot.View(v.now, v.cache)
    requires Eligible(cfg, v, t, exclude, tried)
    ensures exists at: nat ::
      && at <= v.now && v.now - at < Snapshot.MaxStateAge(cfg.sweepSec)
      && t.container in h(at) && h(at)[t.container].state == Snapshot.Running
  {
    Snapshot.ObservedWasRunning(h, events, t.container, cfg.sweepSec);
  }
}
