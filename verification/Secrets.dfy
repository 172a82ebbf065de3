/**
 Branch-scoped secrets are stored by branch NAME, and a rename takes no lock. This shows that they
 nevertheless behave as if each branch had a list of its own, keyed by its id: renames move nothing,
 a clone gets its parent's list and nothing else, and undoing a create empties the clone's list and
 touches no other.
 */
module Secrets {
  import opened Options

  datatype Secret = Secret(name: string, value: string, branch: Option<string>, service: string)

  /** A secret as its owner sees it. */
  datatype Own = Own(name: string, value: string, service: string)

  /** One project's branches (id to name) and its secret rows. */
  datatype Doc = Doc(branches: map<string, string>, secrets: seq<Secret>)

  /** The same, kept by id; `shared` are the project-wide rows. */
  datatype Table = Table(lists: map<string, seq<Own>>, shared: seq<Own>)

  /** The rows of one scope, in order. */
  function Rows(secrets: seq<Secret>, branch: Option<string>): seq<Own> {
    if secrets == [] then []
    else
      var u, rest := secrets[0], Rows(secrets[1..], branch);
      if u.branch == branch then [Own(u.name, u.value, u.service)] + rest else rest
  }

  type Scopes = Option<string> -> seq<Own>

  function ScopesOf(d: Doc): Scopes {
    n => Rows(d.secrets, n)
  }

  function TableOf(branches: map<string, string>, rows: Scopes): Table {
    Table(map id | id in branches :: rows(Some(branches[id])), rows(None))
  }

  function Abs(d: Doc): Table {
    TableOf(d.branches, ScopesOf(d))
  }

  predicate NamesDiffer(branches: map<string, string>) {
    forall a, b :: a in branches && b in branches && a != b ==> branches[a] != branches[b]
  }

  predicate Named(branches: map<string, string>, n: string) {
    exists id :: id in branches && branches[id] == n
  }

  /** No row names a branch that is not there: a list left behind would be inherited by the next
      branch of that name. */
  ghost predicate NoOrphans(branches: map<string, string>, rows: Scopes) {
    forall n :: !Named(branches, n) ==> rows(Some(n)) == []
  }

  ghost predicate Sound(d: Doc) {
    NamesDiffer(d.branches) && NoOrphans(d.branches, ScopesOf(d))
  }

  predicate Taken(branches: map<string, string>, n: string, but: string) {
    exists id :: id in branches && id != but && branches[id] == n
  }

  // ---- what the writes do ----

  function Readdressed(u: Secret, from: string, to: string): Secret {
    if u.branch == Some(from) then u.(branch := Some(to)) else u
  }

  function Moved(secrets: seq<Secret>, from: string, to: string): seq<Secret> {
    if secrets == [] then [] else [Readdressed(secrets[0], from, to)] + Moved(secrets[1..], from, to)
  }

  function Copies(secrets: seq<Secret>, from: string, to: string): seq<Secret> {
    if secrets == [] then []
    else
      var rest := Copies(secrets[1..], from, to);
      if secrets[0].branch == Some(from) then [secrets[0].(branch := Some(to))] + rest else rest
  }

  function Without(secrets: seq<Secret>, names: set<string>): seq<Secret> {
    if secrets == [] then []
    else
      var b, rest := secrets[0].branch, Without(secrets[1..], names);
      if b.Some? && b.value in names then rest else [secrets[0]] + rest
  }

  function NameOf(d: Doc, id: string, fallback: string): string {
    if id in d.branches then d.branches[id] else fallback
  }

  /** Every name the branch has answered to, less those another branch holds now. */
  function Ours(d: Doc, id: string, first: string, carried: string): set<string> {
    set n | n in {first, carried, NameOf(d, id, first)} && !Taken(d.branches, n, id)
  }

  /** `setUserSecret`: the first row of that name and scope is updated in place, or one is added. */
  function Put(secrets: seq<Secret>, u: Secret): seq<Secret> {
    if secrets == [] then [u]
    else if secrets[0].name == u.name && secrets[0].branch == u.branch then [u] + secrets[1..]
    else [secrets[0]] + Put(secrets[1..], u)
  }

  function PutOwn(list: seq<Own>, u: Own): seq<Own> {
    if list == [] then [u]
    else if list[0].name == u.name then [u] + list[1..]
    else [list[0]] + PutOwn(list[1..], u)
  }

  datatype Write =
    | Set(branch: Option<string>, secret: Own)
    | Commit(id: string, name: string)
    | Rename(id: string, name: string)
    | Copy(clone: string, cloneName: string, parent: string, parentName: string)
    | Unwind(id: string, first: string, carried: string, clean: bool, copied: bool)
    | Delete(id: string)

  /** `Set` takes a branch id; a commit's name is free and a rename's is free or its own; the rows a copy
      or an unwinding works on are there, since the create holds both branches' keys throughout. */
  predicate May(d: Doc, w: Write) {
    match w
    case Set(branch, _) => branch.Some? ==> branch.value in d.branches
    case Commit(id, name) => id !in d.branches && !Taken(d.branches, name, id)
    case Rename(id, name) => id in d.branches && !Taken(d.branches, name, id)
    case Copy(clone, _, parent, _) => clone in d.branches && parent in d.branches && clone != parent
    case Unwind(id, _, _, _, _) => id in d.branches
    case Delete(id) => id in d.branches
  }

  function Did(d: Doc, w: Write): Doc
    requires May(d, w)
  {
    match w
    case Set(branch, u) =>
      var scope := if branch.Some? then Some(d.branches[branch.value]) else None;
      d.(secrets := Put(d.secrets, Secret(u.name, u.value, scope, u.service)))
    case Commit(id, name) => d.(branches := d.branches[id := name])
    case Rename(id, name) => Doc(d.branches[id := name], Moved(d.secrets, d.branches[id], name))
    case Copy(clone, cloneName, parent, parentName) =>
      d.(secrets := d.secrets + Copies(d.secrets, NameOf(d, parent, parentName), NameOf(d, clone, cloneName)))
    case Unwind(id, first, carried, clean, copied) =>
      var swept := if clean then Without(d.secrets, {d.branches[id]}) else d.secrets;
      Doc(if clean then d.branches - {id} else d.branches,
          if copied then Without(swept, Ours(d, id, first, carried)) else swept)
    case Delete(id) => Doc(d.branches - {id}, Without(d.secrets, {d.branches[id]}))
  }

  /** The same writes on a table kept by id, where a rename is nothing at all. */
  function DidById(t: Table, w: Write): Table
    requires w.Set? && w.branch.Some? ==> w.branch.value in t.lists
    requires w.Copy? ==> w.clone in t.lists && w.parent in t.lists
    requires w.Unwind? ==> w.id in t.lists
  {
    match w
    case Set(None, u) => t.(shared := PutOwn(t.shared, u))
    case Set(Some(id), u) => t.(lists := t.lists[id := PutOwn(t.lists[id], u)])
    case Commit(id, _) => t.(lists := t.lists[id := []])
    case Rename(_, _) => t
    case Copy(clone, _, parent, _) => t.(lists := t.lists[clone := t.lists[clone] + t.lists[parent]])
    case Unwind(id, _, _, clean, copied) =>
      if clean then t.(lists := t.lists - {id}) else if copied then t.(lists := t.lists[id := []]) else t
    case Delete(id) => t.(lists := t.lists - {id})
  }

  // ---- lists, one step at a time ----

  lemma {:induction false} RowsConcat(a: seq<Secret>, b: seq<Secret>, n: Option<string>)
    ensures Rows(a + b, n) == Rows(a, n) + Rows(b, n)
  {
    if a == [] {
      assert a + b == b;
    } else {
      assert (a + b)[1..] == a[1..] + b;
      RowsConcat(a[1..], b, n);
    }
  }

  lemma {:induction false} RowsMoved(secrets: seq<Secret>, from: string, to: string, n: Option<string>)
    requires from != to && Rows(secrets, Some(to)) == []
    ensures Rows(Moved(secrets, from, to), n) ==
      if n == Some(to) then Rows(secrets, Some(from)) else if n == Some(from) then [] else Rows(secrets, n)
  {
    if secrets != [] {
      assert secrets[0].branch != Some(to);
      RowsMoved(secrets[1..], from, to, n);
    }
  }

  lemma {:induction false} MovedIs(secrets: seq<Secret>, from: string, to: string)
    ensures |Moved(secrets, from, to)| == |secrets|
    ensures forall k :: 0 <= k < |secrets| ==> Moved(secrets, from, to)[k] == Readdressed(secrets[k], from, to)
  {
    if secrets != [] { MovedIs(secrets[1..], from, to); }
  }

  lemma {:induction false} MovedToItself(secrets: seq<Secret>, n: string)
    ensures Moved(secrets, n, n) == secrets
  {
    if secrets != [] { MovedToItself(secrets[1..], n); }
  }

  lemma {:induction false} RowsCopied(secrets: seq<Secret>, from: string, to: string, n: Option<string>)
    ensures Rows(Copies(secrets, from, to), n) == if n == Some(to) then Rows(secrets, Some(from)) else []
  {
    if secrets != [] { RowsCopied(secrets[1..], from, to, n); }
  }

  lemma {:induction false} RowsWithout(secrets: seq<Secret>, names: set<string>, n: Option<string>)
    ensures Rows(Without(secrets, names), n) == if n.Some? && n.value in names then [] else Rows(secrets, n)
  {
    if secrets != [] { RowsWithout(secrets[1..], names, n); }
  }

  lemma {:induction false} WithoutTwice(secrets: seq<Secret>, a: set<string>, b: set<string>)
    ensures Without(Without(secrets, a), b) == Without(secrets, a + b)
  {
    if secrets != [] { WithoutTwice(secrets[1..], a, b); }
  }

  lemma {:induction false} RowsPut(secrets: seq<Secret>, u: Secret, n: Option<string>)
    ensures Rows(Put(secrets, u), n) ==
      if n == u.branch then PutOwn(Rows(secrets, n), Own(u.name, u.value, u.service)) else Rows(secrets, n)
  {
    if secrets != [] {
      RowsPut(secrets[1..], u, n);
    }
  }

  // ---- lists, by the branch that owns them ----

  lemma StillNamed(branches: map<string, string>, branches': map<string, string>, n: string)
    requires forall id :: id in branches && branches[id] == n ==> id in branches' && branches'[id] == n
    ensures Named(branches, n) ==> Named(branches', n)
  {
    if Named(branches, n) {
      var id :| id in branches && branches[id] == n;
      assert id in branches' && branches'[id] == n;
    }
  }

  /** One branch's list replaced. */
  lemma OneListChanges(branches: map<string, string>, rows: Scopes, rows': Scopes, id: string, list: seq<Own>)
    requires NamesDiffer(branches) && NoOrphans(branches, rows) && id in branches
    requires forall n :: rows'(n) == if n == Some(branches[id]) then list else rows(n)
    ensures NoOrphans(branches, rows')
    ensures var t := TableOf(branches, rows); TableOf(branches, rows') == t.(lists := t.lists[id := list])
  {
    assert Named(branches, branches[id]);
  }

  lemma SharedChanges(branches: map<string, string>, rows: Scopes, rows': Scopes, list: seq<Own>)
    requires NoOrphans(branches, rows)
    requires forall n :: rows'(n) == if n == None then list else rows(n)
    ensures NoOrphans(branches, rows') && TableOf(branches, rows') == TableOf(branches, rows).(shared := list)
  {
  }

  /** A name given up is left empty, so nothing is orphaned by a change of names. */
  lemma NothingOrphaned(branches: map<string, string>, rows: Scopes, branches': map<string, string>, rows': Scopes, left: set<string>)
    requires NoOrphans(branches, rows)
    requires forall x :: x in branches && branches[x] !in left ==> x in branches' && branches'[x] == branches[x]
    requires forall n :: n !in left && !Named(branches', n) ==> rows'(Some(n)) == rows(Some(n))
    requires forall n :: n in left && !Named(branches', n) ==> rows'(Some(n)) == []
    ensures NoOrphans(branches', rows')
  {
    forall n | !Named(branches', n) ensures rows'(Some(n)) == [] {
      if n !in left { StillNamed(branches, branches', n); }
    }
  }

  lemma SameTable(branches: map<string, string>, rows: Scopes, branches': map<string, string>, rows': Scopes)
    requires branches'.Keys == branches.Keys && rows'(None) == rows(None)
    requires forall x :: x in branches ==> rows'(Some(branches'[x])) == rows(Some(branches[x]))
    ensures TableOf(branches', rows') == TableOf(branches, rows)
  {
    assert forall x :: x in branches' <==> x in branches.Keys;
  }

  /** A list that follows its branch to a new name. */
  lemma ListFollowsName(branches: map<string, string>, rows: Scopes, rows': Scopes, id: string, from: string, to: string)
    requires NamesDiffer(branches) && NoOrphans(branches, rows) && id in branches && branches[id] == from
    requires forall x :: x in branches ==> branches[x] != to
    requires forall n :: rows'(n) == if n == Some(to) then rows(Some(from)) else if n == Some(from) then [] else rows(n)
    ensures NamesDiffer(branches[id := to]) && NoOrphans(branches[id := to], rows')
    ensures TableOf(branches[id := to], rows') == TableOf(branches, rows)
  {
    var branches' := branches[id := to];
    assert Named(branches', to) by { assert branches'[id] == to; }
    assert NoOrphans(branches', rows') by { NothingOrphaned(branches, rows, branches', rows', {from}); }
    assert TableOf(branches', rows') == TableOf(branches, rows) by { SameTable(branches, rows, branches', rows'); }
  }

  /** One branch's list emptied. */
  lemma ListEmptied(branches: map<string, string>, rows: Scopes, rows': Scopes, id: string, names: set<string>)
    requires NamesDiffer(branches) && NoOrphans(branches, rows) && id in branches
    requires branches[id] in names && forall x :: x in branches && x != id ==> branches[x] !in names
    requires forall n :: rows'(n) == if n.Some? && n.value in names then [] else rows(n)
    ensures NoOrphans(branches, rows')
    ensures var t := TableOf(branches, rows); TableOf(branches, rows') == t.(lists := t.lists[id := []])
  {
    assert forall x :: x in branches ==> rows'(Some(branches[x])) == if x == id then [] else rows(Some(branches[x]));
  }

  /** A row dropped whose list is empty. */
  lemma RowDropped(branches: map<string, string>, rows: Scopes, id: string)
    requires NamesDiffer(branches) && NoOrphans(branches, rows) && id in branches && rows(Some(branches[id])) == []
    ensures NamesDiffer(branches - {id}) && NoOrphans(branches - {id}, rows)
    ensures var t := TableOf(branches, rows); TableOf(branches - {id}, rows) == t.(lists := t.lists - {id})
  {
    NothingOrphaned(branches, rows, branches - {id}, rows, {branches[id]});
  }

  // ---- the refinement ----

  lemma SetRefines(d: Doc, w: Write)
    requires Sound(d) && May(d, w) && w.Set?
    ensures Abs(Did(d, w)) == DidById(Abs(d), w) && Sound(Did(d, w))
  {
    var d', u := Did(d, w), w.secret;
    var scope := if w.branch.Some? then Some(d.branches[w.branch.value]) else None;
    forall n { RowsPut(d.secrets, Secret(u.name, u.value, scope, u.service), n); }
    var list := PutOwn(ScopesOf(d)(scope), u);
    if w.branch.Some? {
      OneListChanges(d.branches, ScopesOf(d), ScopesOf(d'), w.branch.value, list);
    } else {
      SharedChanges(d.branches, ScopesOf(d), ScopesOf(d'), list);
    }
  }

  lemma CommitRefines(d: Doc, w: Write)
    requires Sound(d) && May(d, w) && w.Commit?
    ensures Abs(Did(d, w)) == DidById(Abs(d), w) && Sound(Did(d, w))
  {
    var d' := Did(d, w);
    assert !Named(d.branches, w.name);
    forall n | !Named(d'.branches, n) ensures ScopesOf(d')(Some(n)) == [] { StillNamed(d.branches, d'.branches, n); }
    assert Abs(d').lists == Abs(d).lists[w.id := []];
  }

  lemma RenameRefines(d: Doc, w: Write)
    requires Sound(d) && May(d, w) && w.Rename?
    ensures Abs(Did(d, w)) == Abs(d) && Sound(Did(d, w))
  {
    var d', from, to := Did(d, w), d.branches[w.id], w.name;
    if from == to {
      MovedToItself(d.secrets, to);
      assert d' == d;
    } else {
      assert !Named(d.branches, to);
      assert ScopesOf(d)(Some(to)) == [];
      forall x | x in d.branches ensures d.branches[x] != to {}
      forall n { RowsMoved(d.secrets, from, to, n); }
      ListFollowsName(d.branches, ScopesOf(d), ScopesOf(d'), w.id, from, to);
    }
  }

  lemma CopyRefines(d: Doc, w: Write)
    requires Sound(d) && May(d, w) && w.Copy?
    ensures Abs(Did(d, w)) == DidById(Abs(d), w) && Sound(Did(d, w))
  {
    var d', from, to := Did(d, w), d.branches[w.parent], d.branches[w.clone];
    var list := ScopesOf(d)(Some(to)) + ScopesOf(d)(Some(from));
    forall n ensures ScopesOf(d')(n) == if n == Some(to) then list else ScopesOf(d)(n) {
      RowsCopied(d.secrets, from, to, n);
      RowsConcat(d.secrets, Copies(d.secrets, from, to), n);
    }
    OneListChanges(d.branches, ScopesOf(d), ScopesOf(d'), w.clone, list);
  }

  lemma SweepRefines(d: Doc, id: string, names: set<string>)
    requires Sound(d) && id in d.branches
    requires d.branches[id] in names && forall n :: n in names ==> !Taken(d.branches, n, id)
    ensures var d' := d.(secrets := Without(d.secrets, names));
      && Sound(d') && Abs(d') == Abs(d).(lists := Abs(d).lists[id := []])
      && Rows(d'.secrets, Some(d.branches[id])) == []
  {
    var d' := d.(secrets := Without(d.secrets, names));
    forall n ensures ScopesOf(d')(n) == if n.Some? && n.value in names then [] else ScopesOf(d)(n) {
      RowsWithout(d.secrets, names, n);
    }
    forall x | x in d.branches && x != id ensures d.branches[x] !in names {
      assert d.branches[x] in names ==> Taken(d.branches, d.branches[x], id);
    }
    ListEmptied(d.branches, ScopesOf(d), ScopesOf(d'), id, names);
    RowsWithout(d.secrets, names, Some(d.branches[id]));
  }

  lemma DropRefines(d: Doc, id: string)
    requires Sound(d) && id in d.branches && Rows(d.secrets, Some(d.branches[id])) == []
    ensures var d' := d.(branches := d.branches - {id});
      Sound(d') && Abs(d') == Abs(d).(lists := Abs(d).lists - {id})
  {
    RowDropped(d.branches, ScopesOf(d), id);
  }

  lemma DeleteRefines(d: Doc, id: string, names: set<string>)
    requires Sound(d) && id in d.branches
    requires d.branches[id] in names && forall n :: n in names ==> !Taken(d.branches, n, id)
    ensures var d' := Doc(d.branches - {id}, Without(d.secrets, names));
      Sound(d') && Abs(d') == Abs(d).(lists := Abs(d).lists - {id})
  {
    SweepRefines(d, id, names);
    DropRefines(d.(secrets := Without(d.secrets, names)), id);
    assert Abs(d).lists[id := []] - {id} == Abs(d).lists - {id};
  }

  lemma UnwindRefines(d: Doc, w: Write)
    requires Sound(d) && May(d, w) && w.Unwind?
    ensures Abs(Did(d, w)) == DidById(Abs(d), w) && Sound(Did(d, w))
  {
    var name := d.branches[w.id];
    var ours := Ours(d, w.id, w.first, w.carried);
    assert !Taken(d.branches, name, w.id);
    if w.clean && w.copied {
      WithoutTwice(d.secrets, {name}, ours);
      DeleteRefines(d, w.id, {name} + ours);
    } else if w.clean {
      DeleteRefines(d, w.id, {name});
    } else if w.copied {
      SweepRefines(d, w.id, ours);
    }
  }

  /** Every write does to the name-keyed rows what the same write does to a table kept by id, and keeps
      the rows sound for the next. */
  lemma WriteRefines(d: Doc, w: Write)
    requires Sound(d) && May(d, w)
    ensures Abs(Did(d, w)) == DidById(Abs(d), w) && Sound(Did(d, w))
  {
    match w
    case Set(_, _) => SetRefines(d, w);
    case Commit(_, _) => CommitRefines(d, w);
    case Rename(_, _) => RenameRefines(d, w);
    case Copy(_, _, _, _) => CopyRefines(d, w);
    case Unwind(_, _, _, _, _) => UnwindRefines(d, w);
    case Delete(id) => DeleteRefines(d, id, {d.branches[id]});
  }

  // ---- whole runs ----

  predicate MayById(t: Table, w: Write) {
    match w
    case Set(branch, _) => branch.Some? ==> branch.value in t.lists
    case Copy(clone, _, parent, _) => clone in t.lists && parent in t.lists
    case Unwind(id, _, _, _, _) => id in t.lists
    case _ => true
  }

  predicate AllById(t: Table, writes: seq<Write>)
    decreases |writes|
  {
    writes == [] || (MayById(t, writes[0]) && AllById(DidById(t, writes[0]), writes[1..]))
  }

  function ById(t: Table, writes: seq<Write>): Table
    requires AllById(t, writes)
    decreases |writes|
  {
    if writes == [] then t else ById(DidById(t, writes[0]), writes[1..])
  }

  predicate All(d: Doc, writes: seq<Write>)
    decreases |writes|
  {
    writes == [] || (May(d, writes[0]) && All(Did(d, writes[0]), writes[1..]))
  }

  function Done(d: Doc, writes: seq<Write>): Doc
    requires All(d, writes)
    decreases |writes|
  {
    if writes == [] then d else Done(Did(d, writes[0]), writes[1..])
  }

  /** Any sequence of writes, creates and their failures, renames and deletes in between, leaves what
      the same sequence leaves in a table kept by id. */
  lemma {:induction false} RunRefines(d: Doc, writes: seq<Write>)
    requires Sound(d) && All(d, writes)
    ensures AllById(Abs(d), writes) && Abs(Done(d, writes)) == ById(Abs(d), writes) && Sound(Done(d, writes))
    decreases |writes|
  {
    if writes != [] {
      WriteRefines(d, writes[0]);
      assert forall id :: id in d.branches ==> id in Abs(d).lists;
      RunRefines(Did(d, writes[0]), writes[1..]);
    }
  }

  function NoRenames(writes: seq<Write>): seq<Write> {
    if writes == [] then []
    else if writes[0].Rename? then NoRenames(writes[1..])
    else [writes[0]] + NoRenames(writes[1..])
  }

  lemma {:induction false} RenamesAreNothing(t: Table, writes: seq<Write>)
    requires AllById(t, writes)
    ensures AllById(t, NoRenames(writes)) && ById(t, NoRenames(writes)) == ById(t, writes)
    decreases |writes|
  {
    if writes != [] {
      RenamesAreNothing(DidById(t, writes[0]), writes[1..]);
      if !writes[0].Rename? {
        assert NoRenames(writes)[1..] == NoRenames(writes[1..]);
      }
    }
  }

  /** So where renames land in a run makes no difference to anybody's secrets. */
  lemma RenamesMakeNoDifference(d: Doc, writes: seq<Write>)
    requires Sound(d) && All(d, writes)
    ensures AllById(Abs(d), NoRenames(writes)) && Abs(Done(d, writes)) == ById(Abs(d), NoRenames(writes))
  {
    RunRefines(d, writes);
    RenamesAreNothing(Abs(d), writes);
  }

  /** `w` does to no other branch anything that depends on `c`'s own secrets, and neither copies onto `c`
      nor ends it. Secrets set on `c` itself are its own affair, and a rename of it is nothing. */
  predicate Spares(w: Write, c: string) {
    match w
    case Set(_, _) => true
    case Commit(id, _) => id != c
    case Rename(_, _) => true
    case Copy(clone, _, parent, _) => clone != c && parent != c
    case Unwind(id, _, _, _, _) => id != c
    case Delete(id) => id != c
  }

  /** Two tables with the same lists but for `c`'s. */
  ghost predicate Agree(t: Table, t': Table, c: string) {
    && t.shared == t'.shared && t.lists.Keys == t'.lists.Keys && c in t.lists
    && forall x :: x in t.lists && x != c ==> t'.lists[x] == t.lists[x]
  }

  lemma {:induction false} AgreeStays(t: Table, t': Table, writes: seq<Write>, c: string)
    requires Agree(t, t', c) && AllById(t, writes)
    requires forall i :: 0 <= i < |writes| ==> Spares(writes[i], c)
    ensures AllById(t', writes) && Agree(ById(t, writes), ById(t', writes), c)
    decreases |writes|
  {
    if writes != [] {
      var w := writes[0];
      assert Spares(w, c);
      assert MayById(t, w);
      assert Agree(DidById(t, w), DidById(t', w), c);
      AgreeStays(DidById(t, w), DidById(t', w), writes[1..], c);
    }
  }

  /** A create that fails after its copy, whatever happened to other branches, whatever was set on the
      half-built clone and whatever was renamed between the copy and the unwinding: everybody else is left
      exactly as if the copy had never been made, and the clone with nothing. */
  lemma FailedCreateLeavesNoTrace(d: Doc, copy: Write, between: seq<Write>, unwind: Write)
    requires Sound(d) && May(d, copy) && All(Did(d, copy), between) && May(Done(Did(d, copy), between), unwind)
    requires copy.Copy? && unwind.Unwind? && unwind.id == copy.clone && unwind.copied
    requires forall i :: 0 <= i < |between| ==> Spares(between[i], copy.clone)
    ensures AllById(Abs(d), between)
    ensures var without, after := ById(Abs(d), between), Abs(Did(Done(Did(d, copy), between), unwind));
      && after.shared == without.shared
      && (forall x :: x != copy.clone && x in without.lists ==> x in after.lists && after.lists[x] == without.lists[x])
      && (forall x :: x in after.lists ==> x in without.lists)
      && (copy.clone in after.lists ==> after.lists[copy.clone] == [])
  {
    var c, d1 := copy.clone, Did(d, copy);
    WriteRefines(d, copy);
    RunRefines(d1, between);
    WriteRefines(Done(d1, between), unwind);
    assert Agree(Abs(d1), Abs(d), c) by {
      assert forall x :: x in d.branches <==> x in Abs(d).lists;
    }
    AgreeStays(Abs(d1), Abs(d), between, c);
  }

  // ---- what a branch resolves ----

  /** `userSecretsFor` on one list: the last row of a name wins. */
  function Value(list: seq<Own>, name: string): Option<string> {
    if list == [] then None
    else if Value(list[1..], name).Some? then Value(list[1..], name)
    else if list[0].name == name then Some(list[0].value)
    else None
  }

  function Count(list: seq<Own>, name: string): nat {
    if list == [] then 0 else (if list[0].name == name then 1 else 0) + Count(list[1..], name)
  }

  lemma {:induction false} HasValueIff(list: seq<Own>, name: string)
    ensures Value(list, name).Some? <==> Count(list, name) > 0
  {
    if list != [] { HasValueIff(list[1..], name); }
  }

  /** A set writes the first row of its name and a read takes the last: it takes effect exactly when
      there is one such row at most, or the last one already says so. */
  lemma {:induction false} SetTakesEffectIff(list: seq<Own>, u: Own)
    ensures Value(PutOwn(list, u), u.name) == Some(u.value) <==> Count(list, u.name) <= 1 || Value(list, u.name) == Some(u.value)
  {
    if list == [] {
      assert PutOwn(list, u)[1..] == [];
    } else if list[0].name == u.name {
      assert PutOwn(list, u)[1..] == list[1..];
      HasValueIff(list[1..], u.name);
    } else {
      assert PutOwn(list, u)[1..] == PutOwn(list[1..], u);
      SetTakesEffectIff(list[1..], u);
    }
  }

  lemma {:induction false} CountConcat(a: seq<Own>, b: seq<Own>, name: string)
    ensures Count(a + b, name) == Count(a, name) + Count(b, name)
  {
    if a == [] {
      assert a + b == b;
    } else {
      assert (a + b)[1..] == a[1..] + b;
      CountConcat(a[1..], b, name);
    }
  }

  lemma {:induction false} ValueConcat(a: seq<Own>, b: seq<Own>, name: string)
    ensures Value(a + b, name) == if Value(b, name).Some? then Value(b, name) else Value(a, name)
  {
    if a == [] {
      assert a + b == b;
    } else {
      assert (a + b)[1..] == a[1..] + b;
      ValueConcat(a[1..], b, name);
    }
  }

  /** What a clone resolves after the copy: whatever its parent resolved at that very moment, under whatever
      names both go by; where the parent had nothing, what was set on the clone before. Nobody else's
      secrets, and none of the parent's, are touched. */
  lemma CloneInherits(d: Doc, w: Write, name: string)
    requires Sound(d) && May(d, w) && w.Copy?
    ensures var before, after := Abs(d), Abs(Did(d, w));
      && after.lists.Keys == before.lists.Keys && after.shared == before.shared
      && w.clone in before.lists && w.parent in before.lists
      && Value(after.lists[w.clone], name) ==
           (if Value(before.lists[w.parent], name).Some? then Value(before.lists[w.parent], name) else Value(before.lists[w.clone], name))
      && forall id :: id in before.lists && id != w.clone ==> after.lists[id] == before.lists[id]
  {
    WriteRefines(d, w);
    ValueConcat(Abs(d).lists[w.clone], Abs(d).lists[w.parent], name);
  }

  /** A second row of a name comes about in a copy onto a half-built clone, exactly when its owner had
      already set there a name the parent also has. */
  lemma CopyKeepsRowsSingleIff(clone: seq<Own>, parent: seq<Own>, name: string)
    requires Count(clone, name) <= 1 && Count(parent, name) <= 1
    ensures Count(clone + parent, name) <= 1 <==> Count(clone, name) == 0 || Count(parent, name) == 0
  {
    CountConcat(clone, parent, name);
  }

  // ---- the store itself ----

  class SecretStore {
    var branches: map<string, string>
    var secrets: seq<Secret>

    constructor (d: Doc)
      ensures Contents() == d
    {
      branches, secrets := d.branches, d.secrets;
    }

    ghost function Contents(): Doc
      reads this
    {
      Doc(branches, secrets)
    }

    /** `setUserSecret`, from the name the caller gives. */
    method SetUserSecret(u: Secret) returns (ok: bool)
      modifies this
      ensures ok <==> u.branch.None? || Named(old(branches), u.branch.value)
      ensures branches == old(branches) && secrets == if ok then Put(old(secrets), u) else old(secrets)
    {
      if u.branch.Some? && !Named(branches, u.branch.value) {
        return false;
      }
      var i := 0;
      ghost var all := secrets;
      while i < |secrets| && !(secrets[i].name == u.name && secrets[i].branch == u.branch)
        invariant 0 <= i <= |secrets| && secrets == all && branches == old(branches)
        invariant Put(all, u) == all[..i] + Put(all[i..], u)
      {
        assert all[i..][1..] == all[i + 1..] && all[i..][0] == all[i];
        i := i + 1;
      }
      if i < |secrets| {
        secrets := secrets[i := u];
      } else {
        secrets := secrets + [u];
      }
      ok := true;
    }

    /** `renameBranch`: the rows follow the name, in place, in the same write. */
    method RenameBranch(id: string, name: string)
      requires May(Contents(), Rename(id, name))
      modifies this
      ensures Contents() == Did(old(Contents()), Rename(id, name))
    {
      var from := branches[id];
      branches := branches[id := name];
      ghost var all := secrets;
      for i := 0 to |secrets|
        invariant |secrets| == |all| && branches == old(branches)[id := name]
        invariant forall k :: 0 <= k < i ==> secrets[k] == Readdressed(all[k], from, name)
        invariant forall k :: i <= k < |all| ==> secrets[k] == all[k]
      {
        if secrets[i].branch == Some(from) {
          secrets := secrets[i := secrets[i].(branch := Some(name))];
        }
      }
      MovedIs(all, from, name);
    }

    /** The inheriting step of a create: both names as this very write finds them. */
    method CopySecrets(clone: string, cloneName: string, parent: string, parentName: string)
      requires May(Contents(), Copy(clone, cloneName, parent, parentName))
      modifies this
      ensures Contents() == Did(old(Contents()), Copy(clone, cloneName, parent, parentName))
    {
      var from := if parent in branches then branches[parent] else parentName;
      var to := if clone in branches then branches[clone] else cloneName;
      var inherited: seq<Secret> := [];
      for i := 0 to |secrets|
        modifies {}
        invariant Copies(secrets, from, to) == inherited + Copies(secrets[i..], from, to)
      {
        assert secrets[i..][0] == secrets[i] && secrets[i..][1..] == secrets[i + 1..];
        if secrets[i].branch == Some(from) {
          inherited := inherited + [secrets[i].(branch := Some(to))];
        }
      }
      secrets := secrets + inherited;
    }

    method Drop(names: set<string>)
      modifies this`secrets
      ensures secrets == Without(old(secrets), names)
    {
      var left: seq<Secret> := [];
      for i := 0 to |secrets|
        modifies {}
        invariant Without(secrets, names) == left + Without(secrets[i..], names)
      {
        assert secrets[i..][0] == secrets[i] && secrets[i..][1..] == secrets[i + 1..];
        if secrets[i].branch.None? || secrets[i].branch.value !in names {
          left := left + [secrets[i]];
        }
      }
      secrets := left;
    }

    /** The secret side of `unwindBranch`, after a teardown that was clean or not. */
    method UnwindBranch(id: string, first: string, carried: string, clean: bool, copied: bool)
      requires May(Contents(), Unwind(id, first, carried, clean, copied))
      modifies this
      ensures Contents() == Did(old(Contents()), Unwind(id, first, carried, clean, copied))
    {
      var ours := Ours(Doc(branches, secrets), id, first, carried);
      if clean {
        Drop({branches[id]});
      }
      if copied {
        Drop(ours);
      }
      if clean {
        branches := branches - {id};
      }
    }
  }
}
