/**
 The dated container snapshot the idle sweep and the eviction pass decide from.

 A docker listing describes the box as it was at some instant between the moment it was asked for and
 the moment it answered. Any number of listings can be in flight while wakes and sleeps record what
 they have just seen, so a listing is dated by when it was asked for and folded in, never swapped in.
 */
module Snapshot {
  import opened Options

  datatype State = Running | Paused | Restarting | Created | Exited | Dead

  datatype Seen = Seen(state: State, id: string)

  datatype Fact = Fact(state: State, id: string, at: nat)

  datatype Presence = Present | Gone | Unknown

  type Listing = map<string, Seen>

  type Cache = map<string, Fact>

  /** A sleep interval short enough would make every fact stale before the pass that took it ends. */
  const MIN_STATE_AGE_MS: nat := 30_000

  function MaxStateAge(sweepSec: nat): nat {
    if 2 * sweepSec * 1000 > MIN_STATE_AGE_MS then 2 * sweepSec * 1000 else MIN_STATE_AGE_MS
  }

  predicate Newer(cache: Cache, name: string, at: nat) {
    name in cache && cache[name].at > at
  }

  /** What is known once a listing asked for at `at` is in: what was learned since stands, and on
      every other name the listing is the truth, absences included. */
  function Folded(cache: Cache, listing: Listing, at: nat): Cache {
    map name | name in cache.Keys + listing.Keys && (Newer(cache, name, at) || name in listing) ::
      if Newer(cache, name, at) then cache[name] else Fact(listing[name].state, listing[name].id, at)
  }

  /** What an operation records of the container it has just started or stopped. */
  function Recorded(cache: Cache, name: string, state: State, now: nat): Cache {
    cache[name := Fact(state, if name in cache then cache[name].id else "", now)]
  }

  predicate ObservedRunning(cache: Cache, name: string, now: nat, maxAge: nat) {
    name in cache && cache[name].state == Running && now - cache[name].at < maxAge
  }

  class Watcher {
    var stateCache: Cache

    constructor ()
      ensures stateCache == map[]
    {
      stateCache := map[];
    }

    /** `absorb`: first what the listing has, then what it lacks. */
    method Absorb(containers: Listing, at: nat)
      modifies this
      ensures stateCache == Folded(old(stateCache), containers, at)
    {
      var next := stateCache;
      var names := containers.Keys;
      ghost var folded := Folded(stateCache, containers, at);
      while names != {}
        invariant names <= containers.Keys
        invariant forall n :: n in next <==> n in stateCache || (n in containers && n !in names)
        invariant forall n :: n in containers && n !in names ==> next[n] == folded[n]
        invariant forall n :: n in stateCache && (n in names || n !in containers) ==> next[n] == stateCache[n]
        modifies {}
      {
        var name :| name in names;
        if name !in next || next[name].at <= at {
          next := next[name := Fact(containers[name].state, containers[name].id, at)];
        }
        names := names - {name};
      }
      var known := next.Keys;
      while known != {}
        invariant known <= next.Keys && folded.Keys <= next.Keys <= folded.Keys + known
        invariant forall n :: n in next && n !in containers ==> n in stateCache && next[n] == stateCache[n]
        invariant forall n :: n in folded ==> next[n] == folded[n]
        modifies {}
      {
        var name :| name in known;
        if name !in containers && next[name].at <= at {
          next := next - {name};
        }
        known := known - {name};
      }
      stateCache := next;
    }

    /** `setCached`, for a container whose transition the caller has seen happen. */
    method SetCached(name: string, state: State, now: nat)
      modifies this
      ensures stateCache == Recorded(old(stateCache), name, state, now)
      // Every other name, and the container's id, are as they were.
      ensures forall n :: n != name ==> (n in stateCache <==> n in old(stateCache)) && (n in old(stateCache) ==> stateCache[n] == old(stateCache)[n])
      ensures name in old(stateCache) ==> stateCache[name].id == old(stateCache)[name].id
      // The choices made from it see the transition at once ...
      ensures forall maxAge: nat :: maxAge > 0 ==> (ObservedRunning(stateCache, name, now, maxAge) <==> state == Running)
      // ... and no listing asked for before it, however late it answers, can take it back.
      ensures forall listing: Listing, at: nat :: at < now ==>
        var folded := Folded(stateCache, listing, at);
        name in folded && folded[name] == stateCache[name]
    {
      stateCache := stateCache[name := Fact(state, if name in stateCache then stateCache[name].id else "", now)];
    }

    /** `containerPresence`: `None` is a docker that did not answer. Only an answer without the name
        is evidence of absence; a newer fact of it still reads as present. */
    method ContainerPresence(answer: Option<Listing>, at: nat, name: string) returns (p: Presence)
      modifies this
      ensures stateCache == if answer.None? then old(stateCache) else Folded(old(stateCache), answer.value, at)
      ensures p == Unknown <==> answer.None?
      ensures p == Gone <==> answer.Some? && name !in answer.value && !Newer(old(stateCache), name, at)
    {
      if answer.None? {
        return Unknown;
      }
      Absorb(answer.value, at);
      p := if name in stateCache then Present else Gone;
    }
  }

  // ---- when the order of two listings matters ----

  function Look<T>(m: map<string, T>, name: string): Option<T> {
    if name in m then Some(m[name]) else None
  }

  function FoldedAt(known: Option<Fact>, seen: Option<Seen>, at: nat): Option<Fact> {
    if known.Some? && known.value.at > at then known
    else if seen.Some? then Some(Fact(seen.value.state, seen.value.id, at))
    else None
  }

  lemma LookFolded(cache: Cache, listing: Listing, at: nat, name: string)
    ensures Look(Folded(cache, listing, at), name) == FoldedAt(Look(cache, name), Look(listing, name), at)
  {
  }

  lemma SameByName(a: Cache, b: Cache)
    ensures a == b <==> forall name :: Look(a, name) == Look(b, name)
  {
    if forall name :: Look(a, name) == Look(b, name) {
      assert forall name :: name in a ==> Look(a, name).Some?;
      assert forall name :: name in b ==> Look(b, name).Some?;
    }
  }

  /** Two listings in flight at once leave the same snapshot in either order exactly when the older
      one has no name the newer one lacks (and nothing newer speaks for). */
  lemma {:induction false} ListingsCommuteIff(cache: Cache, older: Listing, newer: Listing, t1: nat, t2: nat)
    requires t1 < t2
    ensures Folded(Folded(cache, older, t1), newer, t2) == Folded(Folded(cache, newer, t2), older, t1)
       <==> forall name :: name in older && !Newer(cache, name, t2) ==> name in newer
  {
    var inOrder, late := Folded(Folded(cache, older, t1), newer, t2), Folded(Folded(cache, newer, t2), older, t1);
    forall name ensures Look(inOrder, name) == Look(late, name) <==> (name in older && !Newer(cache, name, t2) ==> name in newer) {
      LookFolded(cache, older, t1, name);
      LookFolded(Folded(cache, older, t1), newer, t2, name);
      LookFolded(cache, newer, t2, name);
      LookFolded(Folded(cache, newer, t2), older, t1, name);
    }
    SameByName(inOrder, late);
  }

  /** A container that was removed between the two reads is known again when the older one answers
      last. */
  lemma LateListingRevives()
    ensures var older, newer := map["c" := Seen(Running, "1")], map[];
      && Folded(Folded(map[], older, 1), newer, 2) == map[]
      && Folded(Folded(map[], newer, 2), older, 1) == map["c" := Fact(Running, "1", 1)]
  {
    var older: Listing, newer: Listing := map["c" := Seen(Running, "1")], map[];
    ListingsCommuteIff(map[], older, newer, 1, 2);
    assert Folded(map[], newer, 2) == map[];
  }

  // ---- whole runs, against what docker really did ----

  /** The box at every instant. */
  type History = nat -> Listing

  datatype Event =
    | Listed(at: nat, taken: nat)
    | Learned(name: string, state: State)
    | Dropped(name: string)
    | Pass(ms: nat)

  datatype View = View(now: nat, cache: Cache)

  /** A created container that was never started is recorded as exited. */
  predicate Stands(recorded: State, actual: State) {
    recorded == actual || (recorded == Exited && actual == Created)
  }

  predicate Possible(h: History, v: View, e: Event) {
    match e
    case Listed(at, taken) => at <= taken <= v.now
    case Learned(name, state) => name in h(v.now) && Stands(state, h(v.now)[name].state)
    case Dropped(_) => true
    case Pass(_) => true
  }

  function After(h: History, v: View, e: Event): View {
    match e
    case Listed(at, taken) => v.(cache := Folded(v.cache, h(taken), at))
    case Learned(name, state) => v.(cache := Recorded(v.cache, name, state, v.now))
    case Dropped(name) => v.(cache := v.cache - {name})
    case Pass(ms) => v.(now := v.now + ms)
  }

  predicate IsRun(h: History, v: View, events: seq<Event>)
    decreases |events|
  {
    events == [] || (Possible(h, v, events[0]) && IsRun(h, After(h, v, events[0]), events[1..]))
  }

  function Final(h: History, v: View, events: seq<Event>): View
    decreases |events|
  {
    if events == [] then v else Final(h, After(h, v, events[0]), events[1..])
  }

  predicate TrueAt(h: History, name: string, f: Fact, t: nat) {
    name in h(t) && Stands(f.state, h(t)[name].state)
  }

  /** The fact was true of docker at some instant not before its date. */
  ghost predicate WasTrue(h: History, now: nat, name: string, f: Fact) {
    f.at <= now && exists t: nat :: f.at <= t <= now && TrueAt(h, name, f, t)
  }

  ghost predicate Sound(h: History, v: View) {
    forall name :: name in v.cache ==> WasTrue(h, v.now, name, v.cache[name])
  }

  lemma StepKeepsSound(h: History, v: View, e: Event)
    requires Sound(h, v) && Possible(h, v, e)
    ensures Sound(h, After(h, v, e))
  {
    var v' := After(h, v, e);
    forall name | name in v'.cache ensures WasTrue(h, v'.now, name, v'.cache[name]) {
      var f := v'.cache[name];
      if name in v.cache && v.cache[name] == f {
        assert WasTrue(h, v.now, name, f);
        var t: nat :| f.at <= t <= v.now && TrueAt(h, name, f, t);
        assert f.at <= t <= v'.now && TrueAt(h, name, f, t);
      } else if e.Listed? {
        assert TrueAt(h, name, f, e.taken);
      } else {
        assert TrueAt(h, name, f, v.now);
      }
    }
  }

  lemma {:induction false} RunsKeepSound(h: History, v: View, events: seq<Event>)
    requires Sound(h, v) && IsRun(h, v, events)
    ensures Sound(h, Final(h, v, events))
    decreases |events|
  {
    if events != [] {
      StepKeepsSound(h, v, events[0]);
      RunsKeepSound(h, After(h, v, events[0]), events[1..]);
    }
  }

  /** Whatever listings, wakes and sleeps have interleaved since boot: a container the passes may act
      on was really running within the freshness bound. */
  lemma ObservedWasRunning(h: History, events: seq<Event>, name: string, sweepSec: nat)
    requires IsRun(h, View(0, map[]), events)
    requires var v := Final(h, View(0, map[]), events); ObservedRunning(v.cache, name, v.now, MaxStateAge(sweepSec))
    ensures var v := Final(h, View(0, map[]), events);
      exists t: nat :: t <= v.now && v.now - t < MaxStateAge(sweepSec) && name in h(t) && h(t)[name].state == Running
  {
    RunsKeepSound(h, View(0, map[]), events);
    var v := Final(h, View(0, map[]), events);
    var f := v.cache[name];
    assert WasTrue(h, v.now, name, f);
    var t: nat :| f.at <= t <= v.now && TrueAt(h, name, f, t);
  }

  /** `e` neither speaks for `name` nor reads docker at or after `t`. */
  predicate Leaves(e: Event, name: string, t: nat) {
    match e
    case Listed(at, _) => at < t
    case Learned(n, _) => n != name
    case Dropped(n) => n != name
    case Pass(_) => true
  }

  /** No listing asked for before a fact was learned undoes it, however late and in whatever order
      such listings come back. */
  lemma {:induction false} LateListingsLeaveIt(h: History, v: View, events: seq<Event>, name: string)
    requires IsRun(h, v, events) && name in v.cache
    requires forall e :: e in events ==> Leaves(e, name, v.cache[name].at)
    ensures var v' := Final(h, v, events); name in v'.cache && v'.cache[name] == v.cache[name]
    decreases |events|
  {
    if events != [] {
      assert Leaves(events[0], name, v.cache[name].at);
      var next := After(h, v, events[0]);
      assert name in next.cache && next.cache[name] == v.cache[name];
      LateListingsLeaveIt(h, next, events[1..], name);
    }
  }

  /** `name` is known after every event of the run. */
  predicate StaysKnown(h: History, v: View, events: seq<Event>, name: string)
    decreases |events|
  {
    name in v.cache && (events != [] ==> StaysKnown(h, After(h, v, events[0]), events[1..], name))
  }

  /** While a name stays known its date never goes back. */
  lemma {:induction false} DatesNeverGoBack(h: History, v: View, events: seq<Event>, name: string)
    requires Sound(h, v) && IsRun(h, v, events) && StaysKnown(h, v, events, name)
    ensures name in Final(h, v, events).cache && Final(h, v, events).cache[name].at >= v.cache[name].at
    decreases |events|
  {
    if events != [] {
      var next := After(h, v, events[0]);
      StepKeepsSound(h, v, events[0]);
      assert WasTrue(h, v.now, name, v.cache[name]);
      assert name in next.cache && next.cache[name].at >= v.cache[name].at;
      DatesNeverGoBack(h, next, events[1..], name);
    }
  }
}
