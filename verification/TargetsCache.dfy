/**
 The memoized target list: what the scheduler reads on every request instead of projecting the whole
 document again.

 The memo is keyed on the routing revision alone. A sleep mark is written without moving that revision,
 so it is patched into the cached list in the same breath, and the scheduler's own index, keyed on the
 identity of the list, shares the patched objects.
 */
module TargetsCache {
  import opened Options

  datatype Service = Compute(group: string) | Postgres(name: string) | Managed(kind: string, name: string)

  datatype Key = Key(branch: string, service: Service)

  /** A service row: its sleep mark, and everything else a target is projected from. */
  datatype Row = Row(data: string, sleptAt: Option<nat>)

  datatype Branch = Branch(id: string, project: string, data: string,
    databases: map<Service, Row>, managed: map<Service, Row>, apps: seq<(Service, Row)>)

  datatype Project = Project(data: string, databases: seq<Service>, managed: seq<Service>)

  datatype Doc = Doc(rev: nat, auditRev: nat, projects: map<string, Project>, branches: seq<Branch>)

  /** A target's fields: what it is projected from, and the sleep mark. */
  datatype View = View(key: Key, project: string, branch: string, row: string, sleptAt: Option<nat>)

  function ViewOf(p: Project, id: string, data: string, service: Service, row: Row): View {
    View(Key(id, service), p.data, data, row.data, row.sleptAt)
  }

  /** The registered services of one type that the branch has a row for. */
  function FromRows(p: Project, id: string, data: string, registered: seq<Service>, rows: map<Service, Row>): seq<View> {
    if registered == [] then []
    else
      var n := |registered| - 1;
      var rest := FromRows(p, id, data, registered[..n], rows);
      if registered[n] in rows then rest + [ViewOf(p, id, data, registered[n], rows[registered[n]])] else rest
  }

  function FromApps(p: Project, id: string, data: string, apps: seq<(Service, Row)>): seq<View> {
    if apps == [] then []
    else var n := |apps| - 1; FromApps(p, id, data, apps[..n]) + [ViewOf(p, id, data, apps[n].0, apps[n].1)]
  }

  function FromBranch(projects: map<string, Project>, b: Branch): seq<View> {
    if b.project !in projects then []
    else
      var p := projects[b.project];
      FromRows(p, b.id, b.data, p.databases, b.databases)
      + FromRows(p, b.id, b.data, p.managed, b.managed)
      + FromApps(p, b.id, b.data, b.apps)
  }

  function FromBranches(projects: map<string, Project>, branches: seq<Branch>): seq<View> {
    if branches == [] then []
    else var n := |branches| - 1; FromBranches(projects, branches[..n]) + FromBranch(projects, branches[n])
  }

  /** Every schedulable service on every branch. */
  function Projected(d: Doc): seq<View> {
    FromBranches(d.projects, d.branches)
  }

  // ---- a sleep mark ----

  function MarkRows(rows: map<Service, Row>, service: Service, at: Option<nat>): map<Service, Row> {
    if service in rows then rows[service := rows[service].(sleptAt := at)] else rows
  }

  function MarkApps(apps: seq<(Service, Row)>, service: Service, at: Option<nat>): seq<(Service, Row)> {
    if apps == [] then []
    else
      var n := |apps| - 1;
      MarkApps(apps[..n], service, at) + [if apps[n].0 == service then (service, apps[n].1.(sleptAt := at)) else apps[n]]
  }

  /** The row the mark belongs on, by what kind of service it is. */
  function MarkBranch(b: Branch, key: Key, at: Option<nat>): Branch {
    if b.id != key.branch then b
    else match key.service
      case Compute(_) => b.(apps := MarkApps(b.apps, key.service, at))
      case Postgres(_) => b.(databases := MarkRows(b.databases, key.service, at))
      case Managed(_, _) => b.(managed := MarkRows(b.managed, key.service, at))
  }

  function MarkBranches(branches: seq<Branch>, key: Key, at: Option<nat>): seq<Branch> {
    if branches == [] then []
    else var n := |branches| - 1; MarkBranches(branches[..n], key, at) + [MarkBranch(branches[n], key, at)]
  }

  /** An audit-class write: `rev` stays where it is. */
  function Marked(d: Doc, key: Key, at: Option<nat>): Doc {
    d.(auditRev := d.auditRev + 1, branches := MarkBranches(d.branches, key, at))
  }

  function MarkViews(views: seq<View>, key: Key, at: Option<nat>): seq<View> {
    if views == [] then []
    else
      var n := |views| - 1;
      MarkViews(views[..n], key, at) + [if views[n].key == key then views[n].(sleptAt := at) else views[n]]
  }

  // ---- what the document promises of its rows ----

  predicate Distinct<T(==)>(s: seq<T>) {
    forall i, j :: 0 <= i < j < |s| ==> s[i] != s[j]
  }

  /** Rows are filed under services of their own type, and nothing is listed twice. */
  predicate SaneBranch(b: Branch) {
    && (forall s :: s in b.databases ==> s.Postgres?)
    && (forall s :: s in b.managed ==> s.Managed?)
    && (forall i :: 0 <= i < |b.apps| ==> b.apps[i].0.Compute?)
    && (forall i, j :: 0 <= i < j < |b.apps| ==> b.apps[i].0 != b.apps[j].0)
  }

  predicate Sane(d: Doc) {
    && (forall i :: 0 <= i < |d.branches| ==> SaneBranch(d.branches[i]))
    && (forall i, j :: 0 <= i < j < |d.branches| ==> d.branches[i].id != d.branches[j].id)
    && (forall p :: p in d.projects ==> Distinct(d.projects[p].databases) && Distinct(d.projects[p].managed))
  }

  // ---- marking the document marks the projection ----

  lemma {:induction false} MarkViewsConcat(a: seq<View>, b: seq<View>, key: Key, at: Option<nat>)
    ensures MarkViews(a + b, key, at) == MarkViews(a, key, at) + MarkViews(b, key, at)
  {
    if b == [] {
      assert a + b == a;
    } else {
      var n := |b| - 1;
      assert (a + b)[..|a| + n] == a + b[..n] && (a + b)[|a| + n] == b[n];
      MarkViewsConcat(a, b[..n], key, at);
    }
  }

  lemma {:induction false} MarkFromRows(p: Project, id: string, data: string, registered: seq<Service>,
                                         rows: map<Service, Row>, key: Key, at: Option<nat>)
    ensures MarkViews(FromRows(p, id, data, registered, rows), key, at) ==
      FromRows(p, id, data, registered, if id == key.branch then MarkRows(rows, key.service, at) else rows)
  {
    if registered != [] {
      var n := |registered| - 1;
      MarkFromRows(p, id, data, registered[..n], rows, key, at);
      if registered[n] in rows {
        MarkViewsConcat(FromRows(p, id, data, registered[..n], rows), [ViewOf(p, id, data, registered[n], rows[registered[n]])], key, at);
      }
    }
  }

  lemma {:induction false} MarkFromApps(p: Project, id: string, data: string, apps: seq<(Service, Row)>, key: Key, at: Option<nat>)
    ensures MarkViews(FromApps(p, id, data, apps), key, at) ==
      FromApps(p, id, data, if id == key.branch then MarkApps(apps, key.service, at) else apps)
  {
    if apps != [] {
      var n := |apps| - 1;
      MarkFromApps(p, id, data, apps[..n], key, at);
      MarkViewsConcat(FromApps(p, id, data, apps[..n]), [ViewOf(p, id, data, apps[n].0, apps[n].1)], key, at);
    }
  }

  lemma {:induction false} NoSuchApp(apps: seq<(Service, Row)>, service: Service, at: Option<nat>)
    requires forall i :: 0 <= i < |apps| ==> apps[i].0 != service
    ensures MarkApps(apps, service, at) == apps
  {
    if apps != [] { NoSuchApp(apps[..|apps| - 1], service, at); }
  }

  /** Each of a branch's three kinds of rows, marked. */
  lemma MarkParts(p: Project, b: Branch, key: Key, at: Option<nat>)
    requires SaneBranch(b)
    ensures var b' := MarkBranch(b, key, at);
      && b'.id == b.id && b'.data == b.data && b'.project == b.project
      && MarkViews(FromRows(p, b.id, b.data, p.databases, b.databases), key, at) == FromRows(p, b.id, b.data, p.databases, b'.databases)
      && MarkViews(FromRows(p, b.id, b.data, p.managed, b.managed), key, at) == FromRows(p, b.id, b.data, p.managed, b'.managed)
      && MarkViews(FromApps(p, b.id, b.data, b.apps), key, at) == FromApps(p, b.id, b.data, b'.apps)
  {
    MarkFromRows(p, b.id, b.data, p.databases, b.databases, key, at);
    MarkFromRows(p, b.id, b.data, p.managed, b.managed, key, at);
    MarkFromApps(p, b.id, b.data, b.apps, key, at);
    if !key.service.Compute? { NoSuchApp(b.apps, key.service, at); }
  }

  lemma MarkThree(a: seq<View>, b: seq<View>, c: seq<View>, key: Key, at: Option<nat>)
    ensures MarkViews(a + b + c, key, at) == MarkViews(a, key, at) + MarkViews(b, key, at) + MarkViews(c, key, at)
  {
    MarkViewsConcat(a + b, c, key, at);
    MarkViewsConcat(a, b, key, at);
  }

  lemma MarkFromBranch(projects: map<string, Project>, b: Branch, key: Key, at: Option<nat>)
    requires SaneBranch(b)
    ensures MarkViews(FromBranch(projects, b), key, at) == FromBranch(projects, MarkBranch(b, key, at))
  {
    if b.project in projects {
      var p := projects[b.project];
      MarkParts(p, b, key, at);
      MarkThree(FromRows(p, b.id, b.data, p.databases, b.databases), FromRows(p, b.id, b.data, p.managed, b.managed),
        FromApps(p, b.id, b.data, b.apps), key, at);
    }
  }

  lemma {:induction false} MarkFromBranches(projects: map<string, Project>, branches: seq<Branch>, key: Key, at: Option<nat>)
    requires forall i :: 0 <= i < |branches| ==> SaneBranch(branches[i])
    ensures MarkViews(FromBranches(projects, branches), key, at) == FromBranches(projects, MarkBranches(branches, key, at))
  {
    if branches != [] {
      var n := |branches| - 1;
      MarkFromBranches(projects, branches[..n], key, at);
      MarkViewsConcat(FromBranches(projects, branches[..n]), FromBranch(projects, branches[n]), key, at);
      MarkFromBranch(projects, branches[n], key, at);
    }
  }

  /** Patching every entry of a key is projecting the marked document again. */
  lemma MarkedProjects(d: Doc, key: Key, at: Option<nat>)
    requires Sane(d)
    ensures Projected(Marked(d, key, at)) == MarkViews(Projected(d), key, at)
  {
    MarkFromBranches(d.projects, d.branches, key, at);
  }

  // ---- one target per key ----

  predicate KeysDiffer(views: seq<View>) {
    forall i, j :: 0 <= i < j < |views| ==> views[i].key != views[j].key
  }

  lemma {:induction false} FromRowsKeys(p: Project, id: string, data: string, registered: seq<Service>, rows: map<Service, Row>)
    requires Distinct(registered)
    ensures KeysDiffer(FromRows(p, id, data, registered, rows))
    ensures forall v :: v in FromRows(p, id, data, registered, rows) ==> v.key.branch == id && v.key.service in registered && v.key.service in rows
  {
    if registered != [] {
      var n := |registered| - 1;
      FromRowsKeys(p, id, data, registered[..n], rows);
      var rest := FromRows(p, id, data, registered[..n], rows);
      forall i | 0 <= i < |rest| ensures rest[i].key.service != registered[n] {
        assert rest[i] in rest;
      }
    }
  }

  lemma {:induction false} FromAppsKeys(p: Project, id: string, data: string, apps: seq<(Service, Row)>)
    requires forall i, j :: 0 <= i < j < |apps| ==> apps[i].0 != apps[j].0
    ensures |FromApps(p, id, data, apps)| == |apps|
    ensures forall i :: 0 <= i < |apps| ==> FromApps(p, id, data, apps)[i].key == Key(id, apps[i].0)
  {
    if apps != [] { FromAppsKeys(p, id, data, apps[..|apps| - 1]); }
  }

  lemma KeysConcat(a: seq<View>, b: seq<View>)
    requires KeysDiffer(a) && KeysDiffer(b) && forall x, y :: x in a && y in b ==> x.key != y.key
    ensures KeysDiffer(a + b)
  {
    forall i, j | 0 <= i < j < |a + b| ensures (a + b)[i].key != (a + b)[j].key {
      if i < |a| <= j { assert a[i] in a && b[j - |a|] in b; }
    }
  }

  lemma FromBranchKeys(projects: map<string, Project>, b: Branch)
    requires SaneBranch(b) && forall p :: p in projects ==> Distinct(projects[p].databases) && Distinct(projects[p].managed)
    ensures KeysDiffer(FromBranch(projects, b))
    ensures forall v :: v in FromBranch(projects, b) ==> v.key.branch == b.id
  {
    if b.project in projects {
      var p := projects[b.project];
      var dbs := FromRows(p, b.id, b.data, p.databases, b.databases);
      var managed := FromRows(p, b.id, b.data, p.managed, b.managed);
      var apps := FromApps(p, b.id, b.data, b.apps);
      FromRowsKeys(p, b.id, b.data, p.databases, b.databases);
      FromRowsKeys(p, b.id, b.data, p.managed, b.managed);
      FromAppsKeys(p, b.id, b.data, b.apps);
      KeysConcat(dbs, managed);
      KeysConcat(dbs + managed, apps);
    }
  }

  lemma {:induction false} FromBranchesKeys(projects: map<string, Project>, branches: seq<Branch>)
    requires forall p :: p in projects ==> Distinct(projects[p].databases) && Distinct(projects[p].managed)
    requires forall i :: 0 <= i < |branches| ==> SaneBranch(branches[i])
    requires forall i, j :: 0 <= i < j < |branches| ==> branches[i].id != branches[j].id
    ensures KeysDiffer(FromBranches(projects, branches))
    ensures forall v :: v in FromBranches(projects, branches) ==> exists i :: 0 <= i < |branches| && branches[i].id == v.key.branch
  {
    if branches != [] {
      var n := |branches| - 1;
      FromBranchesKeys(projects, branches[..n]);
      FromBranchKeys(projects, branches[n]);
      forall x, y | x in FromBranches(projects, branches[..n]) && y in FromBranch(projects, branches[n]) ensures x.key != y.key {
        var i :| 0 <= i < n && branches[..n][i].id == x.key.branch;
        assert branches[i].id != branches[n].id;
      }
      KeysConcat(FromBranches(projects, branches[..n]), FromBranch(projects, branches[n]));
      forall v | v in FromBranches(projects, branches) ensures exists i :: 0 <= i < |branches| && branches[i].id == v.key.branch {
        if v in FromBranches(projects, branches[..n]) {
          var i :| 0 <= i < n && branches[..n][i].id == v.key.branch;
          assert branches[i].id == v.key.branch;
        } else {
          assert branches[n].id == v.key.branch;
        }
      }
    }
  }

  lemma {:induction false} MarkBranchesIs(branches: seq<Branch>, key: Key, at: Option<nat>)
    ensures |MarkBranches(branches, key, at)| == |branches|
    ensures forall i :: 0 <= i < |branches| ==> MarkBranches(branches, key, at)[i] == MarkBranch(branches[i], key, at)
  {
    if branches != [] { MarkBranchesIs(branches[..|branches| - 1], key, at); }
  }

  lemma {:induction false} MarkAppsIs(apps: seq<(Service, Row)>, service: Service, at: Option<nat>)
    ensures |MarkApps(apps, service, at)| == |apps|
    ensures forall i :: 0 <= i < |apps| ==> MarkApps(apps, service, at)[i].0 == apps[i].0
  {
    if apps != [] { MarkAppsIs(apps[..|apps| - 1], service, at); }
  }

  lemma MarkBranchIsSane(b: Branch, key: Key, at: Option<nat>)
    requires SaneBranch(b)
    ensures SaneBranch(MarkBranch(b, key, at)) && MarkBranch(b, key, at).id == b.id
  {
    MarkAppsIs(b.apps, key.service, at);
  }

  lemma MarkedIsSane(d: Doc, key: Key, at: Option<nat>)
    requires Sane(d)
    ensures Sane(Marked(d, key, at))
  {
    MarkBranchesIs(d.branches, key, at);
    var marked := MarkBranches(d.branches, key, at);
    forall i | 0 <= i < |marked| ensures SaneBranch(marked[i]) && marked[i].id == d.branches[i].id {
      MarkBranchIsSane(d.branches[i], key, at);
    }
  }

  lemma {:induction false} MarkViewsIs(views: seq<View>, key: Key, at: Option<nat>)
    ensures |MarkViews(views, key, at)| == |views|
    ensures forall i :: 0 <= i < |views| ==>
      MarkViews(views, key, at)[i] == if views[i].key == key then views[i].(sleptAt := at) else views[i]
  {
    if views != [] { MarkViewsIs(views[..|views| - 1], key, at); }
  }

  lemma ProjectedKeysDiffer(d: Doc)
    requires Sane(d)
    ensures KeysDiffer(Projected(d))
  {
    FromBranchesKeys(d.projects, d.branches);
  }

  // ---- what is projected, told from the document ----

  predicate RowShown(row: Row, v: View) {
    v.row == row.data && v.sleptAt == row.sleptAt
  }

  /** The branch serves what the view shows: a database or managed service its project registers and it has
      a row for, or a compute group it runs, each with that row's data and sleep mark. */
  ghost predicate Serves(p: Project, b: Branch, v: View) {
    var service := v.key.service;
    && v.key.branch == b.id && v.project == p.data && v.branch == b.data
    && match service
       case Postgres(_) => service in p.databases && service in b.databases && RowShown(b.databases[service], v)
       case Managed(_, _) => service in p.managed && service in b.managed && RowShown(b.managed[service], v)
       case Compute(_) => exists i :: 0 <= i < |b.apps| && b.apps[i].0 == service && RowShown(b.apps[i].1, v)
  }

  /** A branch of an existing project serves it. */
  ghost predicate Scheduled(d: Doc, v: View) {
    exists i :: 0 <= i < |d.branches| && d.branches[i].project in d.projects && Serves(d.projects[d.branches[i].project], d.branches[i], v)
  }

  lemma {:induction false} FromRowsHas(p: Project, id: string, data: string, registered: seq<Service>, rows: map<Service, Row>, v: View)
    ensures v in FromRows(p, id, data, registered, rows) <==>
      && v.key.branch == id && v.project == p.data && v.branch == data
      && v.key.service in registered && v.key.service in rows && RowShown(rows[v.key.service], v)
  {
    if registered != [] {
      var n := |registered| - 1;
      FromRowsHas(p, id, data, registered[..n], rows, v);
      assert registered == registered[..n] + [registered[n]];
    }
  }

  lemma {:induction false} FromAppsHas(p: Project, id: string, data: string, apps: seq<(Service, Row)>, v: View)
    ensures v in FromApps(p, id, data, apps) <==>
      && v.key.branch == id && v.project == p.data && v.branch == data
      && exists i :: 0 <= i < |apps| && apps[i].0 == v.key.service && RowShown(apps[i].1, v)
  {
    if apps != [] {
      var n := |apps| - 1;
      FromAppsHas(p, id, data, apps[..n], v);
      assert forall i :: 0 <= i < n ==> apps[..n][i] == apps[i];
    }
  }

  lemma FromBranchHas(projects: map<string, Project>, b: Branch, v: View)
    requires SaneBranch(b)
    ensures v in FromBranch(projects, b) <==> b.project in projects && Serves(projects[b.project], b, v)
  {
    if b.project in projects {
      var p := projects[b.project];
      FromRowsHas(p, b.id, b.data, p.databases, b.databases, v);
      FromRowsHas(p, b.id, b.data, p.managed, b.managed, v);
      FromAppsHas(p, b.id, b.data, b.apps, v);
    }
  }

  lemma {:induction false} FromBranchesHas(projects: map<string, Project>, branches: seq<Branch>, v: View)
    requires forall i :: 0 <= i < |branches| ==> SaneBranch(branches[i])
    ensures v in FromBranches(projects, branches) <==>
      exists i :: 0 <= i < |branches| && branches[i].project in projects && Serves(projects[branches[i].project], branches[i], v)
  {
    if branches != [] {
      var n := |branches| - 1;
      FromBranchesHas(projects, branches[..n], v);
      FromBranchHas(projects, branches[n], v);
      assert forall i :: 0 <= i < n ==> branches[..n][i] == branches[i];
    }
  }

  /** The projection has every service of the document that can be scheduled, as it is, and nothing else. */
  lemma ProjectedIsScheduled(d: Doc, v: View)
    requires Sane(d)
    ensures v in Projected(d) <==> Scheduled(d, v)
  {
    FromBranchesHas(d.projects, d.branches, v);
  }

  function Patched(v: View, key: Key, at: Option<nat>): View {
    if v.key == key then v.(sleptAt := at) else v
  }

  /** What is scheduled of the document is what was, with one service's sleep mark moved. */
  ghost predicate OnlyMarked(d: Doc, d': Doc, key: Key, at: Option<nat>) {
    && d'.rev == d.rev && d'.projects == d.projects
    && (forall v :: Scheduled(d, v) ==> Scheduled(d', Patched(v, key, at)))
    && (forall v :: Scheduled(d', v) ==> exists u :: Scheduled(d, u) && v == Patched(u, key, at))
  }

  /** A sleep mark changes the mark of that service, on whatever branch and of whatever kind it is, and
      nothing else that is scheduled. */
  lemma MarkIsScheduled(d: Doc, key: Key, at: Option<nat>)
    requires Sane(d)
    ensures OnlyMarked(d, Marked(d, key, at), key, at)
  {
    var before, after := Projected(d), Projected(Marked(d, key, at));
    MarkedProjects(d, key, at);
    MarkedIsSane(d, key, at);
    MarkViewsIs(before, key, at);
    forall v | Scheduled(d, v) ensures Scheduled(Marked(d, key, at), Patched(v, key, at)) {
      ProjectedIsScheduled(d, v);
      var i :| 0 <= i < |before| && before[i] == v;
      assert after[i] == Patched(v, key, at);
      ProjectedIsScheduled(Marked(d, key, at), after[i]);
    }
    forall v | Scheduled(Marked(d, key, at), v) ensures exists u :: Scheduled(d, u) && v == Patched(u, key, at) {
      ProjectedIsScheduled(Marked(d, key, at), v);
      var i :| 0 <= i < |after| && after[i] == v;
      ProjectedIsScheduled(d, before[i]);
      assert v == Patched(before[i], key, at);
    }
  }

  // ---- the cache and the index, over shared objects ----

  class Target {
    const key: Key
    const project: string
    const branch: string
    const row: string
    var sleptAt: Option<nat>

    constructor (v: View)
      ensures AsView() == v
    {
      key, project, branch, row, sleptAt := v.key, v.project, v.branch, v.row, v.sleptAt;
    }

    function AsView(): View
      reads this
    {
      View(key, project, branch, row, sleptAt)
    }
  }

  /** One projection; two of them are told apart by identity. */
  class Listing {
    const items: seq<Target>

    constructor (items: seq<Target>)
      ensures this.items == items
    {
      this.items := items;
    }
  }

  ghost predicate Shows(items: seq<Target>, views: seq<View>)
    reads items
  {
    |items| == |views| && forall i :: 0 <= i < |items| ==> items[i].AsView() == views[i]
  }

  /** The list shows exactly what the document schedules. */
  ghost predicate Lists(items: seq<Target>, d: Doc)
    reads items
  {
    forall v :: Scheduled(d, v) <==> exists i :: 0 <= i < |items| && items[i].AsView() == v
  }

  lemma ShownIsListed(items: seq<Target>, d: Doc)
    requires Sane(d) && Shows(items, Projected(d))
    ensures Lists(items, d)
  {
    forall v ensures Scheduled(d, v) <==> exists i :: 0 <= i < |items| && items[i].AsView() == v {
      ProjectedIsScheduled(d, v);
      if v in Projected(d) {
        var i :| 0 <= i < |items| && Projected(d)[i] == v;
        assert items[i].AsView() == v;
      }
    }
  }

  predicate ItemKeysDiffer(items: seq<Target>) {
    forall i, j :: 0 <= i < j < |items| ==> items[i].key != items[j].key
  }

  ghost predicate Indexes(byKey: map<Key, Target>, items: seq<Target>) {
    && (forall i :: 0 <= i < |items| ==> items[i].key in byKey && byKey[items[i].key] == items[i])
    && (forall k :: k in byKey ==> byKey[k] in items && byKey[k].key == k)
  }

  class Targets {
    var doc: Doc
    var cacheRev: nat
    var cached: Listing?
    var indexed: Listing?
    var byKey: map<Key, Target>

    constructor (d: Doc)
      requires Sane(d)
      ensures Valid() && doc == d && cached == null
    {
      doc, cacheRev, cached, indexed, byKey := d, 0, null, null, map[];
    }

    ghost function Items(): seq<Target>
      reads this
    {
      if cached == null then [] else cached.items
    }

    /** Whenever the cache may be served it is the projection of the document as it is now. */
    ghost predicate Valid()
      reads this, Items()
    {
      && Sane(doc)
      && ItemKeysDiffer(Items())
      && (cached != null ==> cacheRev <= doc.rev && (cacheRev == doc.rev ==> Shows(cached.items, Projected(doc))))
      && (indexed != null ==> Indexes(byKey, indexed.items))
    }

    /** `serviceTargets`: the memo while the routing revision stands, a fresh projection otherwise. */
    method ServiceTargets() returns (list: Listing)
      requires Valid()
      modifies this`cached, this`cacheRev
      ensures Valid() && list == cached && cacheRev == doc.rev
      ensures Lists(list.items, doc) && ItemKeysDiffer(list.items) && Shows(list.items, Projected(doc))
      ensures old(cached) != null && old(cacheRev) == doc.rev ==> list == old(cached)
      ensures !(old(cached) != null && old(cacheRev) == doc.rev) ==> fresh(list) && fresh(list.items)
    {
      if cached != null && cacheRev == doc.rev {
        ShownIsListed(cached.items, doc);
        return cached;
      }
      var items := ProjectTargets(doc);
      ProjectedKeysDiffer(doc);
      ShownIsListed(items, doc);
      list := new Listing(items);
      cached, cacheRev := list, doc.rev;
      forall i, j | 0 <= i < j < |items| ensures items[i].key != items[j].key {
        assert items[i].AsView() == Projected(doc)[i] && items[j].AsView() == Projected(doc)[j];
      }
    }

    /** Any write that is not an audit one: it moves the revision. */
    method RoutingWrite(next: Doc)
      requires Valid() && Sane(next)
      modifies this`doc
      ensures Valid() && doc == next.(rev := old(doc).rev + 1)
    {
      doc := next.(rev := doc.rev + 1);
    }

    /** An event, or a touched token: nothing a target is projected from. */
    method AuditWrite()
      requires Valid()
      modifies this`doc
      ensures Valid() && doc == old(doc).(auditRev := old(doc).auditRev + 1)
    {
      doc := doc.(auditRev := doc.auditRev + 1);
    }

    /** The first cached target of the key, which is the only one. */
    method PatchCached(key: Key, at: Option<nat>)
      requires ItemKeysDiffer(Items())
      modifies Items()
      ensures forall j :: 0 <= j < |Items()| ==> Items()[j].AsView() == Patched(old(Items()[j].AsView()), key, at)
    {
      if cached == null {
        return;
      }
      var i := 0;
      while i < |cached.items| && cached.items[i].key != key
        invariant 0 <= i <= |cached.items|
        invariant forall j :: 0 <= j < i ==> cached.items[j].key != key
        modifies {}
      {
        i := i + 1;
      }
      if i < |cached.items| {
        cached.items[i].sleptAt := at;
      }
    }

    /** `markSlept`: the row, and the cached target of that key if there is one. */
    method MarkSlept(key: Key, at: Option<nat>)
      requires Valid()
      modifies this`doc, Items()
      ensures Valid() && doc == Marked(old(doc), key, at) && cached == old(cached) && cacheRev == old(cacheRev)
      ensures OnlyMarked(old(doc), doc, key, at)
    {
      ghost var before := doc;
      MarkIsScheduled(doc, key, at);
      MarkedProjects(doc, key, at);
      MarkedIsSane(doc, key, at);
      MarkViewsIs(Projected(doc), key, at);
      doc := Marked(doc, key, at);
      PatchCached(key, at);
      forall j | cached != null && cacheRev == doc.rev && 0 <= j < |cached.items| ensures cached.items[j].AsView() == Projected(doc)[j] {
        assert old(cached.items[j].AsView()) == Projected(before)[j];
      }
    }

    method Reindex(list: Listing)
      requires Valid() && list == cached && Lists(list.items, doc)
      modifies this`indexed, this`byKey
      ensures Valid() && indexed == list && Indexes(byKey, list.items) && Lists(list.items, doc)
    {
      if indexed != list {
        byKey := Index(list.items);
        indexed := list;
      }
    }

    /** The scheduler's `targetOf`: its index is rebuilt whenever the list is another one. */
    method TargetOf(key: Key) returns (t: Target?)
      requires Valid()
      modifies this`cached, this`cacheRev, this`indexed, this`byKey
      ensures Valid()
      ensures Answers(t, doc, key)
    {
      var list := ServiceTargets();
      Reindex(list);
      t := IndexAnswers(list.items, byKey, doc, key);
    }
  }

  /** The answer is the key's target as the document has it, or null when it schedules none of that key. */
  ghost predicate Answers(t: Target?, d: Doc, key: Key)
    reads t
  {
    if t == null then forall v :: Scheduled(d, v) ==> v.key != key else t.key == key && Scheduled(d, t.AsView())
  }

  method IndexAnswers(items: seq<Target>, byKey: map<Key, Target>, ghost d: Doc, key: Key) returns (t: Target?)
    requires Indexes(byKey, items) && Lists(items, d)
    ensures Answers(t, d, key)
  {
    t := if key in byKey then byKey[key] else null;
    if t != null {
      ghost var i :| 0 <= i < |items| && items[i] == byKey[key];
      assert items[i].AsView() == t.AsView();
    } else {
      forall v | Scheduled(d, v) ensures v.key != key {
        var i :| 0 <= i < |items| && items[i].AsView() == v;
        assert items[i].key in byKey;
      }
    }
  }

  method Index(items: seq<Target>) returns (byKey: map<Key, Target>)
    requires ItemKeysDiffer(items)
    ensures Indexes(byKey, items)
  {
    byKey := map[];
    for i := 0 to |items|
      invariant forall j :: 0 <= j < i ==> items[j].key in byKey && byKey[items[j].key] == items[j]
      invariant forall k :: k in byKey ==> byKey[k] in items && byKey[k].key == k
    {
      byKey := byKey[items[i].key := items[i]];
    }
  }

  ghost predicate Extends(items: seq<Target>, acc: seq<Target>) {
    |items| >= |acc| && items[..|acc|] == acc
  }

  method AddRows(acc: seq<Target>, ghost shown: seq<View>, p: Project, id: string, data: string,
    registered: seq<Service>, rows: map<Service, Row>) returns (items: seq<Target>)
    requires Shows(acc, shown)
    ensures Shows(items, shown + FromRows(p, id, data, registered, rows))
    ensures Extends(items, acc) && forall i :: |acc| <= i < |items| ==> fresh(items[i])
  {
    items := acc;
    for i := 0 to |registered|
      invariant Extends(items, acc) && forall k :: |acc| <= k < |items| ==> fresh(items[k])
      invariant Shows(items, shown + FromRows(p, id, data, registered[..i], rows))
    {
      assert registered[..i + 1][..i] == registered[..i];
      if registered[i] in rows {
        var t := new Target(ViewOf(p, id, data, registered[i], rows[registered[i]]));
        items := items + [t];
      }
    }
    assert registered[..|registered|] == registered;
  }

  method AddApps(acc: seq<Target>, ghost shown: seq<View>, p: Project, id: string, data: string, apps: seq<(Service, Row)>)
    returns (items: seq<Target>)
    requires Shows(acc, shown)
    ensures Shows(items, shown + FromApps(p, id, data, apps))
    ensures Extends(items, acc) && forall i :: |acc| <= i < |items| ==> fresh(items[i])
  {
    items := acc;
    for i := 0 to |apps|
      invariant Extends(items, acc) && forall k :: |acc| <= k < |items| ==> fresh(items[k])
      invariant Shows(items, shown + FromApps(p, id, data, apps[..i]))
    {
      assert apps[..i + 1][..i] == apps[..i];
      var t := new Target(ViewOf(p, id, data, apps[i].0, apps[i].1));
      items := items + [t];
    }
    assert apps[..|apps|] == apps;
  }

  method AddBranch(acc: seq<Target>, ghost shown: seq<View>, projects: map<string, Project>, b: Branch) returns (items: seq<Target>)
    requires Shows(acc, shown)
    ensures Shows(items, shown + FromBranch(projects, b))
    ensures Extends(items, acc) && forall i :: |acc| <= i < |items| ==> fresh(items[i])
  {
    items := acc;
    if b.project in projects {
      var p := projects[b.project];
      ghost var dbs, managed := FromRows(p, b.id, b.data, p.databases, b.databases), FromRows(p, b.id, b.data, p.managed, b.managed);
      items := AddRows(items, shown, p, b.id, b.data, p.databases, b.databases);
      items := AddRows(items, shown + dbs, p, b.id, b.data, p.managed, b.managed);
      items := AddApps(items, shown + dbs + managed, p, b.id, b.data, b.apps);
      assert shown + dbs + managed + FromApps(p, b.id, b.data, b.apps) == shown + FromBranch(projects, b);
    } else {
      assert shown + FromBranch(projects, b) == shown;
    }
  }

  /** One new target for every schedulable service of the document. */
  method ProjectTargets(d: Doc) returns (items: seq<Target>)
    ensures Shows(items, Projected(d)) && fresh(items)
  {
    items := [];
    for i := 0 to |d.branches|
      invariant forall k :: 0 <= k < |items| ==> fresh(items[k])
      invariant Shows(items, FromBranches(d.projects, d.branches[..i]))
    {
      assert d.branches[..i + 1][..i] == d.branches[..i];
      items := AddBranch(items, FromBranches(d.projects, d.branches[..i]), d.projects, d.branches[i]);
    }
    assert d.branches[..|d.branches|] == d.branches;
  }
}
