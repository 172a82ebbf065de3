/**
 What a boot makes of the claims an interrupted operation left behind.

 A claim is held across an await and given back by its own operation. A daemon killed in between leaves
 it with nobody to give it back, and a claim is what makes the next attempt refuse.
 */
module Boot {
  import opened Options
  import L = Lifecycle
  import opened OpLock
  import P = Ports

  /** What a branch row records: the ports it listens on or publishes, and the hosts of its services. */
  datatype Row = Row(ports: set<nat>, hosts: set<string>)

  datatype Claims = Claims(branches: map<string, string>, lanes: map<nat, string>, hosts: map<string, string>)

  function PortsInUse(rows: map<string, Row>): set<nat> {
    set b, p | b in rows && p in rows[b].ports :: p
  }

  function HostsInUse(rows: map<string, Row>): set<string> {
    set b, h | b in rows && h in rows[b].hosts :: h
  }

  /** A host claim's owner is a branch id, or a service key, which starts with one. */
  function OwnerBranch(owner: string): string {
    if owner == [] || owner[0] == ':' then [] else [owner[0]] + OwnerBranch(owner[1..])
  }

  /** A recorded host is the claimed label, or the label with a domain behind it. */
  predicate Records(host: string, lbl: string) {
    host == lbl || lbl + "." <= host
  }

  predicate Recorded(hosts: set<string>, lbl: string) {
    exists h :: h in hosts && Records(h, lbl)
  }

  /** The claims a live row backs. */
  function Kept(rows: map<string, Row>, c: Claims): Claims {
    Claims(
      map r | r in c.branches && c.branches[r] in rows :: c.branches[r],
      map p | p in c.lanes && c.lanes[p] in rows && p in PortsInUse(rows) :: c.lanes[p],
      map l | l in c.hosts && OwnerBranch(c.hosts[l]) in rows && Recorded(HostsInUse(rows), l) :: c.hosts[l])
  }

  method ReclaimBranches(rows: map<string, Row>, claims: map<string, string>) returns (left: map<string, string>, released: set<string>)
    ensures left == map r | r in claims && claims[r] in rows :: claims[r]
    ensures released == claims.Keys - left.Keys
  {
    left, released := claims, {};
    var rest := claims.Keys;
    while rest != {}
      invariant rest <= claims.Keys
      invariant left == map r | r in claims && (r in rest || claims[r] in rows) :: claims[r]
      invariant released == claims.Keys - left.Keys
    {
      var r :| r in rest;
      rest := rest - {r};
      if claims[r] !in rows {
        left, released := left - {r}, released + {r};
      }
    }
  }

  method ReclaimLanes(rows: map<string, Row>, claims: map<nat, string>, inUse: set<nat>) returns (left: map<nat, string>, released: set<nat>)
    ensures left == map p | p in claims && claims[p] in rows && p in inUse :: claims[p]
    ensures released == claims.Keys - left.Keys
  {
    left, released := claims, {};
    var rest := claims.Keys;
    while rest != {}
      invariant rest <= claims.Keys
      invariant left == map p | p in claims && (p in rest || (claims[p] in rows && p in inUse)) :: claims[p]
      invariant released == claims.Keys - left.Keys
    {
      var p :| p in rest;
      rest := rest - {p};
      if claims[p] !in rows || p !in inUse {
        left, released := left - {p}, released + {p};
      }
    }
  }

  method ReclaimHosts(rows: map<string, Row>, claims: map<string, string>, inUse: set<string>)
    returns (left: map<string, string>, released: set<string>)
    ensures left == map l | l in claims && OwnerBranch(claims[l]) in rows && Recorded(inUse, l) :: claims[l]
    ensures released == claims.Keys - left.Keys
  {
    left, released := claims, {};
    var rest := claims.Keys;
    while rest != {}
      invariant rest <= claims.Keys
      invariant left == map l | l in claims && (l in rest || (OwnerBranch(claims[l]) in rows && Recorded(inUse, l))) :: claims[l]
      invariant released == claims.Keys - left.Keys
    {
      var l :| l in rest;
      rest := rest - {l};
      if !(OwnerBranch(claims[l]) in rows && Recorded(inUse, l)) {
        left, released := left - {l}, released + {l};
      }
    }
  }

  /** `reclaimAbandonedReservations`, which also says what it released. */
  method Reclaim(rows: map<string, Row>, claims: Claims)
    returns (left: Claims, refs: set<string>, ports: set<nat>, labels: set<string>)
    ensures left == Kept(rows, claims)
    ensures refs == claims.branches.Keys - left.branches.Keys
    ensures ports == claims.lanes.Keys - left.lanes.Keys
    ensures labels == claims.hosts.Keys - left.hosts.Keys
  {
    var branches, lanes, hosts;
    branches, refs := ReclaimBranches(rows, claims.branches);
    var portsInUse, hostsInUse := InUse(rows);
    lanes, ports := ReclaimLanes(rows, claims.lanes, portsInUse);
    hosts, labels := ReclaimHosts(rows, claims.hosts, hostsInUse);
    left := Claims(branches, lanes, hosts);
  }

  method InUse(rows: map<string, Row>) returns (ports: set<nat>, hosts: set<string>)
    ensures ports == PortsInUse(rows) && hosts == HostsInUse(rows)
  {
    ports, hosts := {}, {};
    var rest := rows.Keys;
    while rest != {}
      invariant rest <= rows.Keys
      invariant ports == set b, p | b in rows && b !in rest && p in rows[b].ports :: p
      invariant hosts == set b, h | b in rows && b !in rest && h in rows[b].hosts :: h
    {
      var b :| b in rest;
      rest := rest - {b};
      ports, hosts := ports + rows[b].ports, hosts + rows[b].hosts;
    }
  }

  /** A claim stays exactly if the branch it is held for has a row and, where it is of a port or a hostname,
      some row has that port or answers under that name. */
  lemma KeptIff(rows: map<string, Row>, c: Claims)
    ensures forall r :: r in Kept(rows, c).branches <==> r in c.branches && c.branches[r] in rows
    ensures forall p :: p in Kept(rows, c).lanes <==>
      p in c.lanes && c.lanes[p] in rows && exists b :: b in rows && p in rows[b].ports
    ensures forall l :: l in Kept(rows, c).hosts <==>
      && l in c.hosts && OwnerBranch(c.hosts[l]) in rows
      && exists b, h :: b in rows && h in rows[b].hosts && (h == l || l + "." <= h)
    ensures var k := Kept(rows, c);
      && (forall r :: r in k.branches ==> k.branches[r] == c.branches[r])
      && (forall p :: p in k.lanes ==> k.lanes[p] == c.lanes[p])
      && (forall l :: l in k.hosts ==> k.hosts[l] == c.hosts[l])
  {
    forall l | l in c.hosts ensures Recorded(HostsInUse(rows), l) <==> exists b, h :: b in rows && h in rows[b].hosts && (h == l || l + "." <= h) {
      if Recorded(HostsInUse(rows), l) {
        var h :| h in HostsInUse(rows) && Records(h, l);
        var b :| b in rows && h in rows[b].hosts;
        assert b in rows && h in rows[b].hosts && (h == l || l + "." <= h);
      }
      if b, h :| b in rows && h in rows[b].hosts && (h == l || l + "." <= h) {
        assert h in HostsInUse(rows) && Records(h, l);
      }
    }
  }

  /** An owner says which branch it is for: the branch itself, or a service on it. */
  lemma {:induction false} OwnerReads(branch: string, service: string)
    requires ':' !in branch
    ensures OwnerBranch(branch) == branch && OwnerBranch(branch + ":" + service) == branch
  {
    if branch == [] {
      assert ([] + ":" + service)[0] == ':';
    } else {
      assert branch[0] in branch;
      OwnerReads(branch[1..], service);
      assert (branch + ":" + service)[1..] == branch[1..] + ":" + service && (branch + ":" + service)[0] == branch[0];
    }
  }

  /** Reclaiming twice is reclaiming once. */
  lemma ReclaimIsIdempotent(rows: map<string, Row>, c: Claims)
    ensures Kept(rows, Kept(rows, c)) == Kept(rows, c)
  {
  }

  /** Afterwards a port is taken exactly when a row has it: no interrupted create or deploy keeps one
      out of the range. */
  lemma OnlyRowsTakePorts(rows: map<string, Row>, c: Claims, held: map<P.Slot, nat>, p: nat)
    requires forall q :: q in PortsInUse(rows) <==> exists x :: x in held && held[x] == q
    ensures P.Taken(held, Kept(rows, c).lanes, p) <==> p in PortsInUse(rows)
  {
  }

  /** ... and a label is claimed only where a row records its host. */
  lemma OnlyRowsClaimHosts(rows: map<string, Row>, c: Claims, lbl: string)
    requires lbl in Kept(rows, c).hosts
    ensures exists b, h :: b in rows && h in rows[b].hosts && Records(h, lbl)
  {
    var h :| h in HostsInUse(rows) && Records(h, lbl);
    var b :| b in rows && h in rows[b].hosts;
    assert b in rows && h in rows[b].hosts && Records(h, lbl);
  }

  /** A crash anywhere in any run, then this: no branch claim is left, so a retry of a create is refused
      only by a committed row that has the name or the ref. */
  lemma RetryMeetsOnlyRows(run: seq<L.Sys>, moves: seq<L.Move>, i: nat, rows: map<string, Row>, c: Claims,
    project: string, name: string, ref: string, branch: string)
    requires L.IsRun(run, moves) && i < |run|
    requires rows.Keys == run[i].doc.branches.Keys && c.branches == run[i].doc.claims
    ensures Kept(rows, c).branches == map[]
    ensures var d := run[i].doc.(claims := Kept(rows, c).branches);
      L.MayClaim(d, project, name, ref, branch) <==>
        && !L.NameTaken(run[i].doc, project, name)
        && forall id :: id in run[i].doc.branches ==> L.Ref(run[i].doc, id) != ref
  {
    L.RunsKeepInv(run, moves, i);
    var d, d' := run[i].doc, run[i].doc.(claims := Kept(rows, c).branches);
    assert forall r :: r in d.claims ==> d.claims[r] !in rows.Keys;
    assert Kept(rows, c).branches == map[];
    assert L.NameTaken(d', project, name) <==> L.NameTaken(d, project, name);
    forall id | id in d.branches ensures L.Ref(d', id) == L.Ref(d, id) {}
  }

  /** And the next run may start from there, so all of `Lifecycle` holds across boots. */
  lemma NextRunMayStart(run: seq<L.Sys>, moves: seq<L.Move>, i: nat, rows: map<string, Row>, c: Claims)
    requires L.IsRun(run, moves) && i < |run|
    requires rows.Keys == run[i].doc.branches.Keys && c.branches == run[i].doc.claims
    ensures var s := run[i];
      L.IsRun([L.Sys(LockState(map[], []), [], [], s.doc.(claims := Kept(rows, c).branches), s.bytes, s.built)], [])
  {
    L.RunsKeepInv(run, moves, i);
    var s := run[i];
    assert forall r :: r in s.doc.claims ==> s.doc.claims[r] !in rows.Keys;
    var d' := s.doc.(claims := Kept(rows, c).branches);
    forall id | id in s.doc.branches ensures L.Ref(d', id) == L.Ref(s.doc, id) {}
  }
}
