/**
 The one loopback port space: database lanes, the ports of published apps, and the reservations that
 bridge the awaits between choosing a port and writing the row that owns it.

 A slot is what a port is for. `held` is what the rows record, `reserved` what the document reserves,
 and `pending` what operations in flight have been given and not yet written. A port the caller named,
 or an earlier row already had, never goes through the allocator: such a slot is `pinned`.
 */
module Ports {
  import opened Options

  datatype Slot = Lane(branch: string, service: string) | App(branch: string, group: string)

  datatype Book = Book(held: map<Slot, nat>, reserved: map<nat, string>, pending: map<Slot, nat>, pinned: set<Slot>)

  predicate InRange(lo: nat, hi: nat, p: nat) { lo <= p <= hi }

  /** The ports the allocator chose are in its range and all different, rows and operations in flight
      together, and every one in flight is reserved for its branch. */
  ghost predicate Good(b: Book, lo: nat, hi: nat) {
    && (forall x :: x in b.pending ==>
          InRange(lo, hi, b.pending[x]) && b.pending[x] in b.reserved && b.reserved[b.pending[x]] == x.branch)
    && (forall x, y :: x in b.pending && y in b.pending && x != y ==> b.pending[x] != b.pending[y])
    && (forall x :: x in b.held && x !in b.pinned ==> InRange(lo, hi, b.held[x]))
    && (forall x, y :: x in b.held && y in b.held && x != y && x !in b.pinned && y !in b.pinned ==> b.held[x] != b.held[y])
    && (forall x, y :: x in b.held && x !in b.pinned && y in b.pending ==> b.held[x] != b.pending[y])
  }

  /** A row or a reservation names the port. */
  predicate Taken(held: map<Slot, nat>, reserved: map<nat, string>, p: nat) {
    p in reserved || exists x :: x in held && held[x] == p
  }

  function OwnedBy(reserved: map<nat, string>, branch: string): set<nat> {
    set p | p in reserved && reserved[p] == branch
  }

  function SlotsOf(m: map<Slot, nat>, branch: string): map<Slot, nat> {
    map x | x in m && x.branch == branch :: m[x]
  }

  /** A port given to an operation and reserved in the same write. */
  function Given(b: Book, slot: Slot, port: nat): Book {
    b.(reserved := b.reserved[port := slot.branch], pending := b.pending[slot := port])
  }

  lemma GivenKeepsGood(b: Book, lo: nat, hi: nat, slot: Slot, port: nat)
    requires Good(b, lo, hi) && slot !in b.pending
    requires InRange(lo, hi, port) && !Taken(b.held, b.reserved, port)
    ensures Good(Given(b, slot, port), lo, hi)
  {
    assert forall x :: x in b.held ==> Taken(b.held, b.reserved, b.held[x]);
  }

  /** A free port put straight onto a row. */
  lemma RecordedKeepsGood(b: Book, lo: nat, hi: nat, slot: Slot, port: nat)
    requires Good(b, lo, hi) && InRange(lo, hi, port) && !Taken(b.held, b.reserved, port)
    ensures Good(b.(held := b.held[slot := port], pinned := b.pinned - {slot}), lo, hi)
  {
    assert forall x :: x in b.held ==> Taken(b.held, b.reserved, b.held[x]);
  }

  /** One port each for the lanes of `ids`. */
  function GivenLanes(b: Book, branch: string, ids: seq<string>, ports: seq<nat>): Book
    requires |ports| == |ids|
  {
    if ids == [] then b
    else
      var n := |ids| - 1;
      Given(GivenLanes(b, branch, ids[..n], ports[..n]), Lane(branch, ids[n]), ports[n])
  }

  /** The port `nextLanePort` answers with: the lowest of the range that nothing has and the router can
      listen on. */
  predicate Lowest(b: Book, busy: set<nat>, lo: nat, hi: nat, p: nat) {
    && InRange(lo, hi, p) && !Taken(b.held, b.reserved, p) && p !in busy
    && forall q: nat :: lo <= q < p ==> Taken(b.held, b.reserved, q) || q in busy
  }

  ghost predicate Exhausted(b: Book, busy: set<nat>, lo: nat, hi: nat) {
    forall p: nat :: lo <= p <= hi ==> Taken(b.held, b.reserved, p) || p in busy
  }

  /** Every lane got the lowest port left by the ones before it. */
  predicate LowestEach(b: Book, busy: set<nat>, lo: nat, hi: nat, branch: string, ids: seq<string>, ports: seq<nat>)
    requires |ports| <= |ids|
  {
    forall i :: 0 <= i < |ports| ==> Lowest(GivenLanes(b, branch, ids[..i], ports[..i]), busy, lo, hi, ports[i])
  }

  /** The range runs out before every lane has a port. */
  ghost predicate TooFew(b: Book, busy: set<nat>, lo: nat, hi: nat, branch: string, ids: seq<string>) {
    exists got: seq<nat> :: |got| < |ids| && LowestEach(b, busy, lo, hi, branch, ids, got)
      && Exhausted(GivenLanes(b, branch, ids[..|got|], got), busy, lo, hi)
  }

  lemma LowestOneMore(b: Book, busy: set<nat>, lo: nat, hi: nat, branch: string, ids: seq<string>, ports: seq<nat>, port: nat)
    requires |ports| < |ids| && LowestEach(b, busy, lo, hi, branch, ids, ports)
    requires Lowest(GivenLanes(b, branch, ids[..|ports|], ports), busy, lo, hi, port)
    ensures LowestEach(b, busy, lo, hi, branch, ids, ports + [port])
  {
    var more := ports + [port];
    forall i | 0 <= i < |more| ensures Lowest(GivenLanes(b, branch, ids[..i], more[..i]), busy, lo, hi, more[i]) {
      assert more[..i] == ports[..i];
      if i == |ports| { assert ports[..i] == ports; }
    }
  }

  /** One more of them. */
  lemma GivenOneMore(b: Book, lo: nat, hi: nat, branch: string, ids: seq<string>, ports: seq<nat>, i: nat, port: nat)
    requires |ports| == i < |ids|
    requires var now := GivenLanes(b, branch, ids[..i], ports);
      Good(now, lo, hi) && Lane(branch, ids[i]) !in now.pending && InRange(lo, hi, port) && !Taken(now.held, now.reserved, port)
    ensures var now, next := GivenLanes(b, branch, ids[..i], ports), GivenLanes(b, branch, ids[..i + 1], ports + [port]);
      && next == Given(now, Lane(branch, ids[i]), port) && Good(next, lo, hi)
      && forall p :: Taken(next.held, next.reserved, p) <==> Taken(now.held, now.reserved, p) || p == port
  {
    assert ids[..i + 1][..i] == ids[..i] && (ports + [port])[..i] == ports;
    GivenKeepsGood(GivenLanes(b, branch, ids[..i], ports), lo, hi, Lane(branch, ids[i]), port);
  }

  class PortBook {
    const lo: nat
    const hi: nat
    var held: map<Slot, nat>
    var reserved: map<nat, string>
    var busy: set<nat>
    var live: set<string>
    ghost var pending: map<Slot, nat>
    ghost var pinned: set<Slot>

    constructor (lo: nat, hi: nat)
      ensures held == map[] && reserved == map[] && pending == map[] && pinned == {}
      ensures this.lo == lo && this.hi == hi && Good(View(), lo, hi)
    {
      this.lo, this.hi := lo, hi;
      held, reserved, busy, live := map[], map[], {}, {};
      pending, pinned := map[], {};
    }

    ghost function View(): Book
      reads this
    {
      Book(held, reserved, pending, pinned)
    }

    /** `nextLanePort`: the lowest free one, or none. */
    method NextLanePort(taken: set<nat>) returns (port: Option<nat>)
      ensures port.Some? ==> InRange(lo, hi, port.value) && port.value !in taken && port.value !in busy
      ensures forall p: nat :: lo <= p <= hi && (port.None? || p < port.value) ==> p in taken || p in busy
    {
      var p := lo;
      while p <= hi
        invariant lo <= p && forall q: nat :: lo <= q < p && q <= hi ==> q in taken || q in busy
        decreases hi + 1 - p
      {
        if p !in taken && p !in busy {
          return Some(p);
        }
        p := p + 1;
      }
      port := None;
    }

    /** `takenLanePorts`; `skip` is the app that is choosing. */
    method TakenLanePorts(skip: Option<Slot>) returns (taken: set<nat>)
      ensures forall p :: p in taken <==> Taken(if skip.Some? then held - {skip.value} else held, reserved, p)
    {
      var rows := if skip.Some? then held - {skip.value} else held;
      taken := reserved.Keys;
      var rest := rows.Keys;
      while rest != {}
        invariant rest <= rows.Keys
        invariant forall p :: p in taken <==> p in reserved || exists x :: x in rows && x !in rest && rows[x] == p
      {
        var x :| x in rest;
        rest := rest - {x};
        taken := taken + {rows[x]};
      }
    }

    /** `allocLanes`: every lane a new branch needs, or none, in one write. */
    method AllocLanes(branch: string, ids: seq<string>) returns (ports: Option<seq<nat>>)
      requires Good(View(), lo, hi)
      requires forall i, j :: 0 <= i < j < |ids| ==> ids[i] != ids[j]
      requires forall i :: 0 <= i < |ids| ==> Lane(branch, ids[i]) !in pending
      modifies this`reserved, this`pending
      ensures Good(View(), lo, hi)
      ensures ports.Some? ==> |ports.value| == |ids| && View() == GivenLanes(old(View()), branch, ids, ports.value)
      ensures ports.Some? ==> LowestEach(old(View()), busy, lo, hi, branch, ids, ports.value)
      ensures ports.None? ==> View() == old(View()) && TooFew(View(), busy, lo, hi, branch, ids)
    {
      var taken := TakenLanePorts(None);
      var got: seq<nat> := [];
      var res: map<nat, string> := reserved;
      ghost var b, now := View(), View();
      for i := 0 to |ids|
        modifies {}
        invariant |got| == i && now == GivenLanes(b, branch, ids[..i], got) && Good(now, lo, hi)
        invariant LowestEach(b, busy, lo, hi, branch, ids, got)
        invariant res == now.reserved && now.held == held && now.pinned == pinned
        invariant forall p :: p in taken <==> Taken(held, res, p)
        invariant forall k :: i <= k < |ids| ==> Lane(branch, ids[k]) !in now.pending
      {
        var port := NextLanePort(taken);
        if port.None? {
          assert Exhausted(GivenLanes(b, branch, ids[..|got|], got), busy, lo, hi);
          return None;
        }
        LowestOneMore(b, busy, lo, hi, branch, ids, got, port.value);
        GivenOneMore(b, lo, hi, branch, ids, got, i, port.value);
        now := Given(now, Lane(branch, ids[i]), port.value);
        taken := taken + {port.value};
        res := res[port.value := branch];
        got := got + [port.value];
      }
      assert ids[..|ids|] == ids;
      reserved := res;
      pending := now.pending;
      ports := Some(got);
    }

    /** `laneFor`: a service added later gets its lane on the first read, straight onto the row. */
    method LaneFor(branch: string, service: string, known: Option<nat>, needed: bool, fallback: nat) returns (port: Option<nat>)
      requires Good(View(), lo, hi)
      modifies this`held, this`reserved, this`pinned
      ensures Good(View(), lo, hi)
      ensures known.Some? ==> port == known && View() == old(View())
      ensures known.None? && !(needed && branch in live) ==> port == Some(fallback) && View() == old(View())
      ensures known.None? && needed && branch in live && port.None? ==> View() == old(View()) && Exhausted(View(), busy, lo, hi)
      ensures known.None? && needed && branch in live && port.Some? ==>
        && Lowest(old(View()), busy, lo, hi, port.value)
        && View() == old(View()).(held := old(held)[Lane(branch, service) := port.value], pinned := old(pinned) - {Lane(branch, service)})
    {
      if known.Some? {
        return known;
      }
      if !needed || branch !in live {
        return Some(fallback);
      }
      ghost var b := View();
      var taken := TakenLanePorts(None);
      port := NextLanePort(taken);
      if port.Some? {
        assert Lowest(b, busy, lo, hi, port.value);
        RecordedKeepsGood(b, lo, hi, Lane(branch, service), port.value);
        held := held[Lane(branch, service) := port.value];
        reserved := reserved - {port.value};
        pinned := pinned - {Lane(branch, service)};
        assert reserved == b.reserved;
      }
    }

    /** `localHostPort`: a named or recorded port is taken as it is; otherwise one is chosen and
        reserved in the same write. */
    method LocalHostPort(branch: string, group: string, asked: Option<nat>, legacy: Option<nat>) returns (port: Option<nat>)
      requires Good(View(), lo, hi) && App(branch, group) !in pending
      modifies this`reserved, this`pending
      ensures Good(View(), lo, hi)
      ensures var slot := App(branch, group);
        if asked.Some? then port == asked && View() == old(View())
        else if slot in held then port == Some(held[slot]) && View() == old(View())
        else if legacy.Some? then port == legacy && View() == old(View())
        else if port.None? then View() == old(View()) && Exhausted(View(), busy, lo, hi)
        else && Lowest(old(View()), busy, lo, hi, port.value)
             && View() == Given(old(View()), slot, port.value)
    {
      var slot := App(branch, group);
      if asked.Some? {
        return asked;
      }
      if slot in held {
        return Some(held[slot]);
      }
      if legacy.Some? {
        return legacy;
      }
      var taken := TakenLanePorts(Some(slot));
      port := NextLanePort(taken);
      if port.Some? {
        assert held - {slot} == held;
        GivenKeepsGood(View(), lo, hi, slot, port.value);
        reserved := reserved[port.value := branch];
        pending := pending[slot := port.value];
      }
    }

    /** The commit of a created branch: its row takes over every lane it was given, and every
        reservation in its name goes. */
    method CommitBranch(branch: string, lanes: map<Slot, nat>)
      requires Good(View(), lo, hi) && lanes == SlotsOf(pending, branch)
      modifies this
      ensures View() == BranchCommitted(old(View()), branch) && Good(View(), lo, hi)
      // Each lane the create was given is on its row, at that port, and no other row has moved; no
      // reservation in the branch's name is left, and every other stands.
      ensures forall x :: x in old(pending) && x.branch == branch ==> x in held && held[x] == old(pending)[x] && x !in pending
      ensures forall x :: x !in old(pending) || x.branch != branch ==>
        && (x in held <==> x in old(held)) && (x in held ==> held[x] == old(held)[x])
        && (x in pending <==> x in old(pending)) && (x in pending ==> pending[x] == old(pending)[x])
      ensures forall p :: p in reserved <==> p in old(reserved) && old(reserved)[p] != branch
      ensures forall p :: p in reserved ==> reserved[p] == old(reserved)[p]
      ensures live == old(live) + {branch} && busy == old(busy)
    {
      BranchCommitKeepsGood(View(), lo, hi, branch);
      held := held + lanes;
      live := live + {branch};
      DropReservations(branch);
      pinned := pinned - lanes.Keys;
      pending := pending - lanes.Keys;
    }

    /** `releaseLanes`, of a create that failed: its operations give up all they were given. */
    method ReleaseLanes(branch: string)
      requires Good(View(), lo, hi)
      modifies this`reserved, this`pending
      ensures View() == LanesReleased(old(View()), branch) && Good(View(), lo, hi)
      ensures held == old(held)
      ensures forall p :: p in reserved <==> p in old(reserved) && old(reserved)[p] != branch
      ensures forall p :: p in reserved ==> reserved[p] == old(reserved)[p]
      ensures forall x :: x in pending <==> x in old(pending) && x.branch != branch
    {
      DropReservations(branch);
      pending := pending - SlotsOf(pending, branch).Keys;
    }

    method DropReservations(branch: string)
      modifies this`reserved
      ensures reserved == old(reserved) - OwnedBy(old(reserved), branch)
    {
      var rest := reserved.Keys;
      ghost var all := reserved;
      while rest != {}
        invariant rest <= all.Keys
        invariant forall p :: p in reserved <==> p in all && (p in rest || all[p] != branch)
        invariant forall p :: p in reserved ==> reserved[p] == all[p]
      {
        var p :| p in rest;
        if reserved[p] == branch {
          reserved := reserved - {p};
        }
        rest := rest - {p};
      }
    }

    /** The row write of a deploy. */
    method CommitDeploy(branch: string, group: string, port: nat)
      requires Good(View(), lo, hi)
      requires App(branch, group) in pending ==> pending[App(branch, group)] == port
      modifies this
      ensures View() == Deployed(old(View()), App(branch, group), port) && live == old(live) && busy == old(busy)
      ensures held == old(held)[App(branch, group) := port] && reserved == old(reserved) - {port}
      ensures pending == old(pending) - {App(branch, group)}
      ensures Good(View(), lo, hi) <==> NobodyElsesPort(old(View()), App(branch, group), port)
    {
      var slot := App(branch, group);
      DeployKeepsGoodIff(View(), lo, hi, slot, port);
      if Allocated(View(), slot, port) { pinned := pinned - {slot}; } else { pinned := pinned + {slot}; }
      held := held[slot := port];
      reserved := reserved - {port};
      pending := pending - {slot};
    }

    /** `releaseHostPort`, of a deploy that never wrote its row: it does not ask whose the reservation is. */
    method ReleaseHostPort(branch: string, group: string, port: nat)
      requires Good(View(), lo, hi)
      requires App(branch, group) in pending ==> pending[App(branch, group)] == port
      modifies this`reserved, this`pending
      ensures View() == old(View()).(reserved := old(reserved) - {port}, pending := old(pending) - {App(branch, group)})
      ensures Good(View(), lo, hi) <==> NobodyElsesPort(old(View()), App(branch, group), port)
    {
      reserved := reserved - {port};
      pending := pending - {App(branch, group)};
    }
  }

  // ---- commits and compensation ----

  function BranchCommitted(b: Book, branch: string): Book {
    var lanes := SlotsOf(b.pending, branch);
    Book(b.held + lanes, b.reserved - OwnedBy(b.reserved, branch), b.pending - lanes.Keys, b.pinned - lanes.Keys)
  }

  lemma BranchCommitKeepsGood(b: Book, lo: nat, hi: nat, branch: string)
    requires Good(b, lo, hi)
    ensures Good(BranchCommitted(b, branch), lo, hi)
  {
  }

  function LanesReleased(b: Book, branch: string): Book {
    b.(reserved := b.reserved - OwnedBy(b.reserved, branch), pending := b.pending - SlotsOf(b.pending, branch).Keys)
  }

  /** The allocator chose this port for this slot: now, or when the row was written. */
  predicate Allocated(b: Book, slot: Slot, port: nat) {
    (slot in b.pending && b.pending[slot] == port) || (slot in b.held && b.held[slot] == port && slot !in b.pinned)
  }

  function Deployed(b: Book, slot: Slot, port: nat): Book {
    Book(b.held[slot := port], b.reserved - {port}, b.pending - {slot},
         if Allocated(b, slot, port) then b.pinned - {slot} else b.pinned + {slot})
  }

  /** No other operation in flight was given the port. */
  predicate NobodyElsesPort(b: Book, slot: Slot, port: nat) {
    forall x :: x in b.pending && x != slot ==> b.pending[x] != port
  }

  /** A deploy drops whatever reservation is on its port. With an allocated port that is its own; with
      a port its caller named it may be another operation's, and then the promise is broken. */
  lemma DeployKeepsGoodIff(b: Book, lo: nat, hi: nat, slot: Slot, port: nat)
    requires Good(b, lo, hi) && (slot in b.pending ==> b.pending[slot] == port)
    ensures Good(Deployed(b, slot, port), lo, hi) <==> NobodyElsesPort(b, slot, port)
    ensures Allocated(b, slot, port) ==> NobodyElsesPort(b, slot, port)
  {
    var d := Deployed(b, slot, port);
    if !NobodyElsesPort(b, slot, port) {
      var x :| x in b.pending && x != slot && b.pending[x] == port;
      assert x in d.pending && d.pending[x] !in d.reserved;
    }
  }

  /** For instance: one deploy is given a free port, another names that same port and its row is later
      removed; the port is then free to a third, while the first has still to publish it. */
  lemma NamedPortSetsAnotherFree(port: nat)
    ensures var first, second := App("a", "web"), App("b", "web");
      var b := Deployed(Given(Book(map[], map[], map[], {}), first, port), second, port);
      && first in b.pending && b.pending[first] == port
      && !Taken(b.held - {second}, b.reserved, port)
  {
  }
}
