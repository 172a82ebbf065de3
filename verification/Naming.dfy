/**
 The credential naming contract: which names a branch's services mint, which service holds the
 unsuffixed aliases, and that nothing ever takes a name another service, or a user, needs.

 Names are minted in one place (the environment) and listed in another (the inventories), by two
 separate pieces of code.
 */
module Naming {
  import opened Options
  import opened ManagedDb

  // ---- what a branch mints ----

  datatype Service = Service(kind: Type, name: string, bundle: map<Canon, string>)

  /** A registration of the project, and whether the branch carries it. Lists are in creation order. */
  datatype Reg = Reg(service: Service, carried: bool)

  predicate Proper(s: Service) {
    ServiceName(s.name) && s.bundle.Keys == KeysOf(s.kind)
  }

  predicate WellNamed(all: seq<Reg>) {
    && (forall i :: 0 <= i < |all| ==> Proper(all[i].service))
    && (forall i, j :: 0 <= i < j < |all| ==>
         all[i].service.kind != all[j].service.kind || all[i].service.name != all[j].service.name)
  }

  /** The oldest carried service of its type: it holds the unsuffixed aliases. */
  predicate IsHolder(all: seq<Reg>, i: nat)
    requires i < |all|
  {
    all[i].carried && forall j :: 0 <= j < i && all[j].carried ==> all[j].service.kind != all[i].service.kind
  }

  /** `key` is how service `i` mints its credential `c`. */
  predicate Mints(all: seq<Reg>, i: nat, c: Canon, key: string)
    requires i < |all|
  {
    && all[i].carried && c in all[i].service.bundle
    && (key == Suffixed(c, all[i].service.name) || (key == Text(c) && IsHolder(all, i)))
  }

  /** The environment holds every credential of every carried service under its own name, the holders'
      also unsuffixed, and nothing else. */
  ghost predicate Says(env: map<string, string>, all: seq<Reg>) {
    && (forall i, c, key :: 0 <= i < |all| && Mints(all, i, c, key) ==> key in env && env[key] == all[i].service.bundle[c])
    && (forall key :: key in env ==> exists i, c :: 0 <= i < |all| && Mints(all, i, c, key))
  }

  function More(name: string): string { "_" + EnvSuffix(name) }

  lemma SuffixedIs(c: Canon, name: string)
    ensures Suffixed(c, name) == Text(c) + More(name) && Text(c) == Text(c) + ""
    ensures More(name)[1..] == EnvSuffix(name)
  {
  }

  /** One name, one credential, one service: nothing minted ever overwrites anything minted. */
  lemma NamesDoNotCollide(all: seq<Reg>, i: nat, c: Canon, j: nat, c': Canon, key: string)
    requires WellNamed(all) && i < |all| && j < |all| && Mints(all, i, c, key) && Mints(all, j, c', key)
    ensures i == j && c == c'
  {
    var n, n' := all[i].service.name, all[j].service.name;
    SuffixedIs(c, n);
    SuffixedIs(c', n');
    var x, x' := if key == Text(c) then "" else More(n), if key == Text(c') then "" else More(n');
    assert key == Text(c) + x && key == Text(c') + x';
    KeyIsReadable(c, x, c', x');
    KeyHasOneType(all[i].service.kind, all[j].service.kind, c);
    if x != "" {
      assert EnvSuffix(n) == EnvSuffix(n');
      SuffixIsInjective(n, n');
    }
  }

  lemma MintsAsBefore(all: seq<Reg>, r: Reg, i: nat, c: Canon, key: string)
    requires i < |all|
    ensures Mints(all + [r], i, c, key) <==> Mints(all, i, c, key)
  {
    var more := all + [r];
    assert forall j :: 0 <= j <= i ==> more[j] == all[j];
    assert IsHolder(more, i) <==> IsHolder(all, i);
  }

  /** One more service added to an environment. */
  lemma SaysMore(env: map<string, string>, all: seq<Reg>, own: map<string, string>, r: Reg)
    requires WellNamed(all + [r]) && Says(env, all)
    requires forall c, key :: Mints(all + [r], |all|, c, key) ==> key in own && own[key] == r.service.bundle[c]
    requires forall key :: key in own ==> exists c :: Mints(all + [r], |all|, c, key)
    ensures Says(env + own, all + [r])
  {
    var more := all + [r];
    forall i, c, key | 0 <= i < |more| && Mints(more, i, c, key)
      ensures key in env + own && (env + own)[key] == more[i].service.bundle[c]
    {
      if i < |all| {
        MintsAsBefore(all, r, i, c, key);
        if key in own {
          var c' :| Mints(more, |all|, c', key);
          NamesDoNotCollide(more, i, c, |all|, c', key);
        }
      }
    }
    forall key | key in env + own ensures exists i, c :: 0 <= i < |more| && Mints(more, i, c, key) {
      if key in own {
        var c :| Mints(more, |all|, c, key);
      } else {
        var i, c :| 0 <= i < |all| && Mints(all, i, c, key);
        MintsAsBefore(all, r, i, c, key);
      }
    }
  }

  /** The names service `s` uses for `c`. */
  predicate KeyFor(s: Service, holder: bool, c: Canon, key: string) {
    key == Suffixed(c, s.name) || (holder && key == Text(c))
  }

  /** `own` is what the credentials in `done` come to. */
  ghost predicate Holds(own: map<string, string>, s: Service, holder: bool, done: set<Canon>)
    requires done <= s.bundle.Keys
  {
    && (forall c, key :: c in done && KeyFor(s, holder, c, key) ==> key in own && own[key] == s.bundle[c])
    && (forall key :: key in own ==> exists c :: c in done && KeyFor(s, holder, c, key))
  }

  function WithKey(own: map<string, string>, s: Service, holder: bool, c: Canon): map<string, string>
    requires c in s.bundle
  {
    var suffixed := own[Suffixed(c, s.name) := s.bundle[c]];
    if holder then suffixed[Text(c) := s.bundle[c]] else suffixed
  }

  lemma KeyAdded(own: map<string, string>, s: Service, holder: bool, done: set<Canon>, c: Canon)
    requires done <= s.bundle.Keys && c in s.bundle && Holds(own, s, holder, done)
    ensures Holds(WithKey(own, s, holder, c), s, holder, done + {c})
  {
    var own' := WithKey(own, s, holder, c);
    forall c', key | c' in done + {c} && KeyFor(s, holder, c', key) ensures key in own' && own'[key] == s.bundle[c'] {
      SameServiceTells(c', c, s.name);
    }
    forall key | key in own' ensures exists c' :: c' in done + {c} && KeyFor(s, holder, c', key) {
      if KeyFor(s, holder, c, key) {
      } else {
        var c' :| c' in done && KeyFor(s, holder, c', key);
      }
    }
  }

  /** `suffixBundle`, and the bundle itself for the alias holder. */
  method Contribution(s: Service, holder: bool) returns (own: map<string, string>)
    ensures Holds(own, s, holder, s.bundle.Keys)
  {
    own := map[];
    var rest := s.bundle.Keys;
    while rest != {}
      invariant rest <= s.bundle.Keys
      invariant Holds(own, s, holder, s.bundle.Keys - rest)
    {
      var c :| c in rest;
      KeyAdded(own, s, holder, s.bundle.Keys - rest, c);
      assert s.bundle.Keys - (rest - {c}) == s.bundle.Keys - rest + {c};
      own := own[Suffixed(c, s.name) := s.bundle[c]];
      if holder {
        own := own[Text(c) := s.bundle[c]];
      }
      rest := rest - {c};
    }
  }

  lemma SameServiceTells(c: Canon, c': Canon, name: string)
    ensures Suffixed(c, name) != Text(c') && Text(c) != Suffixed(c', name)
    ensures c != c' ==> Suffixed(c, name) != Suffixed(c', name) && Text(c) != Text(c')
  {
    SuffixedIs(c, name);
    SuffixedIs(c', name);
    if Text(c) + More(name) == Text(c') + "" { KeyIsReadable(c, More(name), c', ""); }
    if Text(c) + "" == Text(c') + More(name) { KeyIsReadable(c, "", c', More(name)); }
    if Text(c) + More(name) == Text(c') + More(name) { KeyIsReadable(c, More(name), c', More(name)); }
    if Text(c) + "" == Text(c') + "" { KeyIsReadable(c, "", c', ""); }
  }

  // ---- the environment ----

  predicate KindsApart(xs: seq<Reg>, ys: seq<Reg>) {
    forall x, y :: 0 <= x < |xs| && 0 <= y < |ys| ==> xs[x].service.kind != ys[y].service.kind
  }

  /** Lists of other types, one after another: nothing of one concerns the other. */
  lemma MintsApart(xs: seq<Reg>, ys: seq<Reg>, j: nat, c: Canon, key: string)
    requires j < |ys| && KindsApart(xs, ys)
    ensures Mints(xs + ys, |xs| + j, c, key) <==> Mints(ys, j, c, key)
  {
    var both := xs + ys;
    assert forall k :: 0 <= k < |both| ==> both[k] == if k < |xs| then xs[k] else ys[k - |xs|];
    if IsHolder(both, |xs| + j) {
      forall y: nat | y < j && ys[y].carried ensures ys[y].service.kind != ys[j].service.kind {
        assert both[|xs| + y] == ys[y];
      }
    }
  }

  lemma MintsFirst(xs: seq<Reg>, ys: seq<Reg>, i: nat, c: Canon, key: string)
    requires i < |xs|
    ensures Mints(xs + ys, i, c, key) <==> Mints(xs, i, c, key)
  {
    var both := xs + ys;
    assert forall j :: 0 <= j <= i ==> both[j] == xs[j];
    assert IsHolder(both, i) <==> IsHolder(xs, i);
  }

  lemma FirstIsKept(a: map<string, string>, xs: seq<Reg>, b: map<string, string>, ys: seq<Reg>, i: nat, c: Canon, key: string)
    requires WellNamed(xs + ys) && Says(a, xs) && Says(b, ys) && KindsApart(xs, ys)
    requires i < |xs| && Mints(xs, i, c, key)
    ensures key in a && key !in b && a[key] == xs[i].service.bundle[c]
  {
    MintsFirst(xs, ys, i, c, key);
    if key in b {
      var j, c' :| 0 <= j < |ys| && Mints(ys, j, c', key);
      MintsApart(xs, ys, j, c', key);
      NamesDoNotCollide(xs + ys, i, c, |xs| + j, c', key);
    }
  }

  lemma ValueIsKept(a: map<string, string>, xs: seq<Reg>, b: map<string, string>, ys: seq<Reg>, i: nat, c: Canon, key: string)
    requires WellNamed(xs + ys) && Says(a, xs) && Says(b, ys) && KindsApart(xs, ys)
    requires i < |xs + ys| && Mints(xs + ys, i, c, key)
    ensures key in a + b && (a + b)[key] == (xs + ys)[i].service.bundle[c]
  {
    if i < |xs| {
      MintsFirst(xs, ys, i, c, key);
      FirstIsKept(a, xs, b, ys, i, c, key);
    } else {
      MintsApart(xs, ys, i - |xs|, c, key);
    }
  }

  /** Two environments of different types, merged: neither overwrites the other. */
  lemma BothSay(a: map<string, string>, xs: seq<Reg>, b: map<string, string>, ys: seq<Reg>)
    requires WellNamed(xs + ys) && Says(a, xs) && Says(b, ys) && KindsApart(xs, ys)
    ensures Says(a + b, xs + ys)
  {
    var all := xs + ys;
    forall i, c, key | 0 <= i < |all| && Mints(all, i, c, key) ensures key in a + b && (a + b)[key] == all[i].service.bundle[c] {
      ValueIsKept(a, xs, b, ys, i, c, key);
    }
    forall key | key in a + b ensures exists i, c :: 0 <= i < |all| && Mints(all, i, c, key) {
      SomeoneMints(a, xs, b, ys, key);
    }
  }

  lemma SomeoneMints(a: map<string, string>, xs: seq<Reg>, b: map<string, string>, ys: seq<Reg>, key: string)
    requires Says(a, xs) && Says(b, ys) && KindsApart(xs, ys) && (key in a || key in b)
    ensures exists i, c :: 0 <= i < |xs + ys| && Mints(xs + ys, i, c, key)
  {
    if key in b {
      var j, c :| 0 <= j < |ys| && Mints(ys, j, c, key);
      MintsApart(xs, ys, j, c, key);
      assert Mints(xs + ys, |xs| + j, c, key);
    } else {
      var i, c :| 0 <= i < |xs| && Mints(xs, i, c, key);
      MintsFirst(xs, ys, i, c, key);
    }
  }

  lemma WellNamedPrefix(all: seq<Reg>, n: nat)
    requires WellNamed(all) && n <= |all|
    ensures WellNamed(all[..n])
  {
  }

  lemma SkipKeepsSaying(env: map<string, string>, all: seq<Reg>, r: Reg)
    requires Says(env, all) && !r.carried
    ensures Says(env, all + [r])
  {
    forall i, c, key | 0 <= i < |all| ensures Mints(all + [r], i, c, key) <==> Mints(all, i, c, key) { MintsAsBefore(all, r, i, c, key); }
    forall key | key in env ensures exists i, c :: 0 <= i < |all + [r]| && Mints(all + [r], i, c, key) {
      var i, c :| 0 <= i < |all| && Mints(all, i, c, key);
      assert Mints(all + [r], i, c, key);
    }
  }

  lemma OwnIsMinted(all: seq<Reg>, r: Reg, own: map<string, string>, holder: bool)
    requires r.carried && (holder <==> IsHolder(all + [r], |all|)) && Holds(own, r.service, holder, r.service.bundle.Keys)
    ensures forall c, key :: Mints(all + [r], |all|, c, key) ==> key in own && own[key] == r.service.bundle[c]
    ensures forall key :: key in own ==> exists c :: Mints(all + [r], |all|, c, key)
  {
    forall c, key ensures Mints(all + [r], |all|, c, key) <==> c in r.service.bundle && KeyFor(r.service, holder, c, key) {}
    forall key | key in own ensures exists c :: Mints(all + [r], |all|, c, key) {
      var c :| c in r.service.bundle.Keys && KeyFor(r.service, holder, c, key);
      assert Mints(all + [r], |all|, c, key);
    }
  }

  /** The next service of a list, carried or not. */
  lemma NextSays(env: map<string, string>, regs: seq<Reg>, i: nat, own: map<string, string>, holder: bool)
    requires WellNamed(regs) && i < |regs| && Says(env, regs[..i])
    requires regs[i].carried ==> (holder <==> IsHolder(regs, i)) && Holds(own, regs[i].service, holder, regs[i].service.bundle.Keys)
    ensures Says(if regs[i].carried then env + own else env, regs[..i + 1])
  {
    var before, upTo := regs[..i], regs[..i + 1];
    assert upTo == before + [regs[i]];
    assert forall j :: 0 <= j <= i ==> upTo[j] == regs[j];
    WellNamedPrefix(regs, i + 1);
    if regs[i].carried {
      assert IsHolder(upTo, i) <==> IsHolder(regs, i);
      OwnIsMinted(before, regs[i], own, holder);
      SaysMore(env, before, own, regs[i]);
    } else {
      SkipKeepsSaying(env, before, regs[i]);
    }
  }

  /** One turn of the loops below: a service the branch does not carry adds nothing. */
  method WithService(env: map<string, string>, regs: seq<Reg>, i: nat, holder: bool) returns (r: map<string, string>)
    requires WellNamed(regs) && i < |regs| && Says(env, regs[..i])
    requires regs[i].carried ==> (holder <==> IsHolder(regs, i))
    ensures Says(r, regs[..i + 1])
  {
    if regs[i].carried {
      var own := Contribution(regs[i].service, holder);
      NextSays(env, regs, i, own, holder);
      r := env + own;
    } else {
      NextSays(env, regs, i, map[], false);
      r := env;
    }
  }

  predicate AnyCarried(regs: seq<Reg>, n: nat)
    requires n <= |regs|
  {
    exists j :: 0 <= j < n && regs[j].carried
  }

  lemma AnyCarriedNext(regs: seq<Reg>, i: nat, t: Type)
    requires i < |regs| && AllOf(regs, t)
    ensures AnyCarried(regs, i + 1) <==> AnyCarried(regs, i) || regs[i].carried
    ensures regs[i].carried ==> (IsHolder(regs, i) <==> !AnyCarried(regs, i))
  {
  }

  /** `dbSecretsFor`, and `storageSecretsFor`: the first carried service takes the aliases. */
  method OneTypeSecrets(regs: seq<Reg>, t: Type) returns (env: map<string, string>)
    requires WellNamed(regs) && AllOf(regs, t)
    ensures Says(env, regs)
  {
    env := map[];
    var aliased := false;
    for i := 0 to |regs|
      invariant Says(env, regs[..i])
      invariant aliased <==> AnyCarried(regs, i)
    {
      AnyCarriedNext(regs, i, t);
      env := WithService(env, regs, i, !aliased);
      aliased := aliased || regs[i].carried;
    }
    assert regs[..|regs|] == regs;
  }

  /** `aliasedManagedIds`: the oldest carried service of each type. */
  method AliasedManaged(regs: seq<Reg>) returns (aliased: set<nat>)
    ensures forall i: nat :: i in aliased <==> i < |regs| && IsHolder(regs, i)
  {
    aliased := {};
    var seen: set<Type> := {};
    for i := 0 to |regs|
      invariant forall t :: t in seen <==> exists j :: 0 <= j < i && regs[j].carried && regs[j].service.kind == t
      invariant forall j: nat :: j in aliased <==> j < i && IsHolder(regs, j)
    {
      if regs[i].carried && regs[i].service.kind !in seen {
        seen := seen + {regs[i].service.kind};
        aliased := aliased + {i};
      }
    }
  }

  /** `managedSecretsFor`. */
  method ManagedSecrets(regs: seq<Reg>) returns (env: map<string, string>)
    requires WellNamed(regs)
    ensures Says(env, regs)
  {
    env := map[];
    var aliased := AliasedManaged(regs);
    for i := 0 to |regs|
      invariant Says(env, regs[..i])
    {
      env := WithService(env, regs, i, i in aliased);
    }
    assert regs[..|regs|] == regs;
  }

  predicate AllOf(regs: seq<Reg>, t: Type) {
    forall i :: 0 <= i < |regs| ==> regs[i].service.kind == t
  }

  predicate AllManaged(regs: seq<Reg>) {
    forall i :: 0 <= i < |regs| ==> regs[i].service.kind.Managed?
  }

  lemma WellNamedSlice(all: seq<Reg>, lo: nat, hi: nat)
    requires WellNamed(all) && lo <= hi <= |all|
    ensures WellNamed(all[lo..hi])
  {
    var s := all[lo..hi];
    forall i | 0 <= i < |s| ensures s[i] == all[lo + i] {}
    forall i, j | 0 <= i < j < |s| ensures s[i].service.kind != s[j].service.kind || s[i].service.name != s[j].service.name {
      assert s[i] == all[lo + i] && s[j] == all[lo + j];
    }
  }

  lemma ListsApart(dbs: seq<Reg>, stores: seq<Reg>, managed: seq<Reg>)
    requires AllOf(dbs, Postgres) && AllOf(stores, Storage) && AllManaged(managed) && WellNamed(dbs + stores + managed)
    ensures WellNamed(dbs) && WellNamed(stores) && WellNamed(managed) && WellNamed(dbs + stores)
    ensures KindsApart(dbs, stores) && KindsApart(dbs + stores, managed)
  {
    var all, m, n := dbs + stores + managed, |dbs|, |dbs + stores|;
    WellNamedSlice(all, 0, m);
    WellNamedSlice(all, m, n);
    WellNamedSlice(all, n, |all|);
    WellNamedSlice(all, 0, n);
    assert all[0..m] == dbs && all[m..n] == stores && all[n..] == managed && all[0..n] == dbs + stores;
    assert forall i :: 0 <= i < n ==> (dbs + stores)[i] == if i < m then dbs[i] else stores[i - m];
  }

  /** `mintedSecretsFor`. */
  method MintedSecrets(dbs: seq<Reg>, stores: seq<Reg>, managed: seq<Reg>) returns (env: map<string, string>)
    requires AllOf(dbs, Postgres) && AllOf(stores, Storage) && AllManaged(managed) && WellNamed(dbs + stores + managed)
    ensures Says(env, dbs + stores + managed)
  {
    ListsApart(dbs, stores, managed);
    var db := OneTypeSecrets(dbs, Postgres);
    var st := OneTypeSecrets(stores, Storage);
    var md := ManagedSecrets(managed);
    BothSay(db, dbs, st, stores);
    BothSay(db + st, dbs + stores, md, managed);
    env := db + st + md;
  }

  // ---- the inventory ----

  function NamesFor(keys: set<Canon>, name: string, holder: bool): set<string> {
    (set c | c in keys :: Suffixed(c, name)) + (if holder then set c | c in keys :: Text(c) else {})
  }

  /** The names one service is listed with. */
  function NamesAt(all: seq<Reg>, i: nat): set<string>
    requires i < |all|
  {
    NamesFor(all[i].service.bundle.Keys, all[i].service.name, IsHolder(all, i))
  }

  /** The first carried service of a type is its alias holder, and names tell the services of a type
      apart. */
  lemma FirstCarriedHolds(regs: seq<Reg>, first: nat, i: nat)
    requires WellNamed(regs) && first <= i < |regs| && regs[i].carried
    requires regs[first].carried && regs[first].service.kind == regs[i].service.kind
    requires forall j :: 0 <= j < first ==> !(regs[j].carried && regs[j].service.kind == regs[i].service.kind)
    ensures IsHolder(regs, i) <==> regs[first].service.name == regs[i].service.name
  {
  }

  /** `mintedNamesOf`: for a name on a branch that carries it, by finding the first carried service of
      its type and comparing. */
  method MintedNames(regs: seq<Reg>, t: Type, name: string) returns (names: set<string>)
    requires WellNamed(regs)
    ensures forall i :: 0 <= i < |regs| && regs[i].carried && regs[i].service.kind == t && regs[i].service.name == name ==>
      names == NamesAt(regs, i)
  {
    var first := 0;
    while first < |regs| && !(regs[first].carried && regs[first].service.kind == t)
      invariant 0 <= first <= |regs|
      invariant forall j :: 0 <= j < first ==> !(regs[j].carried && regs[j].service.kind == t)
    {
      first := first + 1;
    }
    names := NamesFor(KeysOf(t), name, first < |regs| && regs[first].service.name == name);
    forall i | 0 <= i < |regs| && regs[i].carried && regs[i].service.kind == t && regs[i].service.name == name
      ensures names == NamesAt(regs, i)
    {
      assert Proper(regs[i].service);
      FirstCarriedHolds(regs, first, i);
    }
  }

  lemma NamesAtIs(all: seq<Reg>, i: nat, key: string)
    requires i < |all| && all[i].carried
    ensures key in NamesAt(all, i) <==> exists c :: Mints(all, i, c, key)
  {
    var s := all[i].service;
    if c :| c in s.bundle.Keys && key == Suffixed(c, s.name) {
      assert Mints(all, i, c, key);
    } else if IsHolder(all, i) {
      if c :| c in s.bundle.Keys && key == Text(c) { assert Mints(all, i, c, key); }
    }
  }

  predicate Lists(all: seq<Reg>, i: nat, key: string)
    requires i < |all|
  {
    all[i].carried && key in NamesAt(all, i)
  }

  /** What is listed is what is minted: a name is in the environment exactly when it is listed under a
      carried service, ... */
  lemma InventoryIsEnvironment(env: map<string, string>, all: seq<Reg>, key: string)
    requires WellNamed(all) && Says(env, all)
    ensures key in env <==> exists i :: 0 <= i < |all| && Lists(all, i, key)
  {
    if key in env {
      var i, c :| 0 <= i < |all| && Mints(all, i, c, key);
      NamesAtIs(all, i, key);
      assert Lists(all, i, key);
    }
    if i :| 0 <= i < |all| && Lists(all, i, key) {
      NamesAtIs(all, i, key);
      var c :| Mints(all, i, c, key);
    }
  }

  /** ... and under that one only. */
  lemma ListedOnce(all: seq<Reg>, i: nat, j: nat, key: string)
    requires WellNamed(all) && i < |all| && j < |all| && Lists(all, i, key) && Lists(all, j, key)
    ensures i == j
  {
    NamesAtIs(all, i, key);
    NamesAtIs(all, j, key);
    var c :| Mints(all, i, c, key);
    var c' :| Mints(all, j, c', key);
    NamesDoNotCollide(all, i, c, j, c', key);
  }

  /** Every type a branch carries has one alias holder, and only one. */
  lemma {:induction false} OneHolderPerType(all: seq<Reg>, k: nat) returns (i: nat)
    requires k < |all| && all[k].carried
    ensures i <= k && all[i].service.kind == all[k].service.kind && IsHolder(all, i)
    ensures forall j: nat :: j < |all| && all[j].service.kind == all[k].service.kind && IsHolder(all, j) ==> j == i
    decreases k
  {
    if IsHolder(all, k) {
      i := k;
    } else {
      var j :| 0 <= j < k && all[j].carried && all[j].service.kind == all[k].service.kind;
      i := OneHolderPerType(all, j);
    }
  }

  // ---- what users may not take ----

  predicate IsReserved(name: string) {
    || name == "DATABASE_URL" || name == "BUCKET_NAME" || "AWS_" <= name
    || "DATABASE_URL_" <= name || "BUCKET_NAME_" <= name
    || exists k: ManagedType, c: Canon :: c in KeysOf(Managed(k)) && (name == Text(c) || Text(c) + "_" <= name)
  }

  /** Some credential of the catalog, bare or with a suffix. */
  ghost predicate CouldBeMinted(name: string) {
    exists t: Type, c: Canon :: c in KeysOf(t) && (name == Text(c) || Text(c) + "_" <= name)
  }

  lemma PostgresIsReserved(c: Canon, x: string)
    requires c in KeysOf(Postgres)
    ensures IsReserved(Text(c)) && IsReserved(Text(c) + "_" + x)
  {
    assert Text(c) == "DATABASE_URL";
    assert Text(c) + "_" + x == "DATABASE_URL_" + x;
  }

  lemma StorageIsReserved(c: Canon, x: string)
    requires c in KeysOf(Storage)
    ensures IsReserved(Text(c)) && IsReserved(Text(c) + "_" + x)
  {
    if c == Canon(BUCKET, NAME) {
      assert Text(c) == "BUCKET_NAME";
      assert Text(c) + "_" + x == "BUCKET_NAME_" + x;
    } else {
      assert StemText(c.stem) == "AWS";
      assert Text(c) == "AWS_" + (AttrText(c.attr) + Tail(c));
      assert Text(c) + "_" + x == "AWS_" + (AttrText(c.attr) + Tail(c) + "_" + x);
    }
  }

  lemma ManagedIsReserved(k: ManagedType, c: Canon, x: string)
    requires c in KeysOf(Managed(k))
    ensures IsReserved(Text(c)) && IsReserved(Text(c) + "_" + x)
  {
    assert Text(c) + "_" <= Text(c) + "_" + x;
  }

  lemma MintableIsReserved(t: Type, c: Canon, name: string)
    requires c in KeysOf(t) && (name == Text(c) || Text(c) + "_" <= name)
    ensures IsReserved(name)
  {
    var x := if name == Text(c) then "" else name[|Text(c)| + 1..];
    assert name != Text(c) ==> name == Text(c) + "_" + x;
    match t
    case Postgres => PostgresIsReserved(c, x);
    case Storage => StorageIsReserved(c, x);
    case Managed(k) => ManagedIsReserved(k, c, x);
    case Compute =>
  }

  lemma ReservedIsMintable(name: string)
    requires IsReserved(name) && !("AWS_" <= name)
    ensures CouldBeMinted(name)
  {
    if name == "DATABASE_URL" || "DATABASE_URL_" <= name {
      DatabaseKey();
    } else if name == "BUCKET_NAME" || "BUCKET_NAME_" <= name {
      BucketKey();
    }
  }

  lemma DatabaseKey()
    ensures Canon(DATABASE, URL) in KeysOf(Postgres)
    ensures Text(Canon(DATABASE, URL)) == "DATABASE_URL" && Text(Canon(DATABASE, URL)) + "_" == "DATABASE_URL_"
  {
  }

  lemma BucketKey()
    ensures Canon(BUCKET, NAME) in KeysOf(Storage)
    ensures Text(Canon(BUCKET, NAME)) == "BUCKET_NAME" && Text(Canon(BUCKET, NAME)) + "_" == "BUCKET_NAME_"
  {
  }

  /** What is refused is what could be minted, now or later, and all of `AWS_`; every other name is free. */
  lemma ReservedIff(name: string)
    ensures IsReserved(name) <==> CouldBeMinted(name) || "AWS_" <= name
  {
    if IsReserved(name) && !("AWS_" <= name) { ReservedIsMintable(name); }
    if CouldBeMinted(name) {
      var t: Type, c: Canon :| c in KeysOf(t) && (name == Text(c) || Text(c) + "_" <= name);
      MintableIsReserved(t, c, name);
    }
  }

  /** Every minted name is one `secrets set` refuses. */
  lemma MintedIsReserved(all: seq<Reg>, i: nat, c: Canon, key: string)
    requires WellNamed(all) && i < |all| && Mints(all, i, c, key)
    ensures IsReserved(key)
  {
    assert Proper(all[i].service);
    var x := EnvSuffix(all[i].service.name);
    match all[i].service.kind
    case Postgres => PostgresIsReserved(c, x);
    case Storage => StorageIsReserved(c, x);
    case Managed(k) => ManagedIsReserved(k, c, x);
  }

  /** So the user's secrets, laid over the minted ones, hide none of them. */
  lemma UserSecretsHideNothing(env: map<string, string>, all: seq<Reg>, user: map<string, string>)
    requires WellNamed(all) && Says(env, all) && forall name :: name in user ==> !IsReserved(name)
    ensures forall key :: key in env ==> key in env + user && (env + user)[key] == env[key]
  {
    forall key | key in env ensures key !in user {
      var i, c :| 0 <= i < |all| && Mints(all, i, c, key);
      MintedIsReserved(all, i, c, key);
    }
  }
}
