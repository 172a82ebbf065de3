/**
 The managed-database catalog and the naming rules every service shares: credential keys, their
 suffixes, credential bundles, and service ids.
 */
module ManagedDb {
  import opened Options

  datatype ManagedType = Redis | Mysql | Mongodb

  datatype Type = Postgres | Storage | Compute | Managed(kind: ManagedType)

  // ---- the catalog ----

  datatype Stem = DATABASE | AWS | BUCKET | REDIS | MYSQL | MONGODB

  datatype Attr = URL | NAME | ACCESS | SECRET | ENDPOINT | REGION | HOST | PORT | USERNAME | PASSWORD | DB

  /** A canonical credential key, by its first two underscore-separated segments, which tell every key
      of the catalog apart. */
  datatype Canon = Canon(stem: Stem, attr: Attr)

  function StemText(s: Stem): string {
    match s
    case DATABASE => "DATABASE"
    case AWS => "AWS"
    case BUCKET => "BUCKET"
    case REDIS => "REDIS"
    case MYSQL => "MYSQL"
    case MONGODB => "MONGODB"
  }

  function AttrText(a: Attr): string {
    match a
    case URL => "URL"
    case NAME => "NAME"
    case ACCESS => "ACCESS"
    case SECRET => "SECRET"
    case ENDPOINT => "ENDPOINT"
    case REGION => "REGION"
    case HOST => "HOST"
    case PORT => "PORT"
    case USERNAME => "USERNAME"
    case PASSWORD => "PASSWORD"
    case DB => "DATABASE"
  }

  /** What three storage keys have after those two. */
  function Tail(c: Canon): string {
    if c == Canon(AWS, ACCESS) then "_KEY_ID"
    else if c == Canon(AWS, SECRET) then "_ACCESS_KEY"
    else if c == Canon(AWS, ENDPOINT) then "_URL_S3"
    else ""
  }

  function Text(c: Canon): string {
    StemText(c.stem) + "_" + AttrText(c.attr) + Tail(c)
  }

  function KeysOf(t: Type): set<Canon> {
    match t
    case Compute => {}
    case Postgres => {Canon(DATABASE, URL)}
    case Storage => {Canon(AWS, ACCESS), Canon(AWS, SECRET), Canon(AWS, ENDPOINT), Canon(BUCKET, NAME), Canon(AWS, REGION)}
    case Managed(Redis) => {Canon(REDIS, URL), Canon(REDIS, HOST), Canon(REDIS, PORT), Canon(REDIS, USERNAME), Canon(REDIS, PASSWORD)}
    case Managed(Mysql) =>
      {Canon(MYSQL, URL), Canon(MYSQL, HOST), Canon(MYSQL, PORT), Canon(MYSQL, DB), Canon(MYSQL, USERNAME), Canon(MYSQL, PASSWORD)}
    case Managed(Mongodb) =>
      {Canon(MONGODB, URL), Canon(MONGODB, HOST), Canon(MONGODB, PORT), Canon(MONGODB, DB), Canon(MONGODB, USERNAME), Canon(MONGODB, PASSWORD)}
  }

  // ---- suffixes ----

  predicate NameChar(c: char) { 'a' <= c <= 'z' || '0' <= c <= '9' || c == '-' }

  /** Lower-kebab, at most 39 characters, no hyphen at either end. */
  predicate ServiceName(s: string) {
    1 <= |s| <= 39 && s[0] != '-' && s[|s| - 1] != '-' && forall i :: 0 <= i < |s| ==> NameChar(s[i])
  }

  function SuffixChar(c: char): char {
    if c == '-' then '_' else if 'a' <= c <= 'z' then (c as int - 'a' as int + 'A' as int) as char else c
  }

  function EnvSuffix(name: string): string {
    seq(|name|, i requires 0 <= i < |name| => SuffixChar(name[i]))
  }

  function Suffixed(c: Canon, name: string): string {
    Text(c) + "_" + EnvSuffix(name)
  }

  lemma SuffixIsInjective(a: string, b: string)
    requires ServiceName(a) && ServiceName(b) && EnvSuffix(a) == EnvSuffix(b)
    ensures a == b
  {
    forall i | 0 <= i < |a| ensures a[i] == b[i] {
      assert EnvSuffix(a)[i] == SuffixChar(a[i]) && EnvSuffix(b)[i] == SuffixChar(b[i]);
      assert NameChar(a[i]) && NameChar(b[i]);
    }
  }

  /** A suffix is what an environment variable may have: capitals, digits and underscores, one for each
      character of the name, a hyphen's being the underscore and a letter's its own capital. */
  lemma SuffixReads(name: string, i: nat)
    requires ServiceName(name) && i < |name|
    ensures |EnvSuffix(name)| == |name|
    ensures var c := EnvSuffix(name)[i];
      && ('A' <= c <= 'Z' || '0' <= c <= '9' || c == '_')
      && (c == '_' <==> name[i] == '-')
      && ('0' <= c <= '9' ==> c == name[i])
      && ('A' <= c <= 'Z' ==> 'a' <= name[i] <= 'z' && c as int - 'A' as int == name[i] as int - 'a' as int)
  {
    assert NameChar(name[i]);
  }

  predicate Plain(s: string) { '_' !in s }

  predicate OpensWithUnderscore(s: string) { s == [] || s[0] == '_' }

  /** A text is cut the same way at its first underscore, however it was put together. */
  lemma FirstSegment(a: string, x: string, b: string, y: string)
    requires Plain(a) && Plain(b) && OpensWithUnderscore(x) && OpensWithUnderscore(y) && a + x == b + y
    ensures a == b && x == y
  {
    var whole := a + x;
    assert a == whole[..|a|] && b == whole[..|b|];
    assert x == whole[|a|..] && y == whole[|b|..];
  }

  lemma SegmentsTell(s: Stem, s': Stem, a: Attr, a': Attr)
    ensures Plain(StemText(s)) && Plain(AttrText(a))
    ensures StemText(s) == StemText(s') ==> s == s'
    ensures AttrText(a) == AttrText(a') ==> a == a'
  {
    assert StemText(s) == StemText(s') ==> StemText(s)[0] == StemText(s')[0] && StemText(s)[1] == StemText(s')[1];
    assert AttrText(a) == AttrText(a') ==> AttrText(a)[0] == AttrText(a')[0] && AttrText(a)[1] == AttrText(a')[1];
  }

  lemma CutTwice(a: string, b: string, more: string, a': string, b': string, more': string)
    requires Plain(a) && Plain(a') && Plain(b) && Plain(b') && OpensWithUnderscore(more) && OpensWithUnderscore(more')
    requires a + "_" + b + more == a' + "_" + b' + more'
    ensures a == a' && b == b' && more == more'
  {
    assert a + "_" + b + more == a + ("_" + (b + more)) && a' + "_" + b' + more' == a' + ("_" + (b' + more'));
    FirstSegment(a, "_" + (b + more), a', "_" + (b' + more'));
    assert ("_" + (b + more))[1..] == b + more && ("_" + (b' + more'))[1..] == b' + more';
    FirstSegment(b, more, b', more');
  }

  lemma Regroup(s: string, a: string, t: string, x: string)
    ensures s + "_" + a + t + x == s + "_" + a + (t + x)
    ensures (t + x)[|t|..] == x
  {
  }

  lemma TailOpens(c: Canon, x: string)
    requires OpensWithUnderscore(x)
    ensures OpensWithUnderscore(Tail(c) + x)
  {
  }

  lemma SameKey(c: Canon, c': Canon, more: string, more': string)
    requires OpensWithUnderscore(more) && OpensWithUnderscore(more')
    requires StemText(c.stem) + "_" + AttrText(c.attr) + more == StemText(c'.stem) + "_" + AttrText(c'.attr) + more'
    ensures c == c' && more == more'
  {
    SegmentsTell(c.stem, c'.stem, c.attr, c'.attr);
    SegmentsTell(c'.stem, c.stem, c'.attr, c.attr);
    CutTwice(StemText(c.stem), AttrText(c.attr), more, StemText(c'.stem), AttrText(c'.attr), more');
  }

  /** A key followed by nothing, or by an underscore and anything, names that key only. */
  lemma KeyIsReadable(c: Canon, x: string, c': Canon, x': string)
    requires OpensWithUnderscore(x) && OpensWithUnderscore(x') && Text(c) + x == Text(c') + x'
    ensures c == c' && x == x'
  {
    TailOpens(c, x);
    TailOpens(c', x');
    Regroup(StemText(c.stem), AttrText(c.attr), Tail(c), x);
    Regroup(StemText(c'.stem), AttrText(c'.attr), Tail(c'), x');
    SameKey(c, c', Tail(c) + x, Tail(c') + x');
  }

  lemma KeyHasOneType(t: Type, t': Type, c: Canon)
    requires c in KeysOf(t) && c in KeysOf(t')
    ensures t == t'
  {
  }

  // ---- credential bundles ----

  function Digit(d: nat): char
    requires d < 10
  {
    (d + '0' as int) as char
  }

  function Decimal(n: nat): string {
    if n < 10 then [Digit(n)] else Decimal(n / 10) + [Digit(n % 10)]
  }

  function Port(k: ManagedType): nat {
    match k
    case Redis => 6379
    case Mysql => 3306
    case Mongodb => 27017
  }

  function Url(scheme: string, user: string, password: string, host: string, port: string, path: string): string {
    scheme + "://" + user + ":" + password + "@" + host + ":" + port + path
  }

  /** `MANAGED_DB[type].bundle`: against the container. `encode` is how a URL carries a password. */
  function Bundle(k: ManagedType, host: string, password: string, encode: string -> string): map<Canon, string> {
    match k
    case Redis => map[
      Canon(REDIS, URL) := Url("redis", "default", encode(password), host, "6379", "/0"),
      Canon(REDIS, HOST) := host, Canon(REDIS, PORT) := "6379", Canon(REDIS, USERNAME) := "default", Canon(REDIS, PASSWORD) := password]
    case Mysql => map[
      Canon(MYSQL, URL) := Url("mysql", "insta", encode(password), host, "3306", "/app"),
      Canon(MYSQL, HOST) := host, Canon(MYSQL, PORT) := "3306", Canon(MYSQL, DB) := "app",
      Canon(MYSQL, USERNAME) := "insta", Canon(MYSQL, PASSWORD) := password]
    case Mongodb => map[
      Canon(MONGODB, URL) := Url("mongodb", "root", encode(password), host, "27017", "/admin?authSource=admin"),
      Canon(MONGODB, HOST) := host, Canon(MONGODB, PORT) := "27017", Canon(MONGODB, DB) := "admin",
      Canon(MONGODB, USERNAME) := "root", Canon(MONGODB, PASSWORD) := password]
  }

  /** `laneBundle`: the same credentials against a lane. */
  function LaneBundle(k: ManagedType, host: string, port: nat, password: string, tls: bool, encode: string -> string): map<Canon, string> {
    var portText := Decimal(port);
    match k
    case Redis => map[
      Canon(REDIS, URL) := Url(if tls then "rediss" else "redis", "default", encode(password), host, portText, "/0"),
      Canon(REDIS, HOST) := host, Canon(REDIS, PORT) := portText, Canon(REDIS, USERNAME) := "default", Canon(REDIS, PASSWORD) := password]
    case Mysql => map[
      Canon(MYSQL, URL) := Url("mysql", "insta", encode(password), host, portText, "/app"),
      Canon(MYSQL, HOST) := host, Canon(MYSQL, PORT) := portText, Canon(MYSQL, DB) := "app",
      Canon(MYSQL, USERNAME) := "insta", Canon(MYSQL, PASSWORD) := password]
    case Mongodb => map[
      Canon(MONGODB, URL) := Url("mongodb", "root", encode(password), host, portText, "/admin?authSource=admin" + if tls then "&tls=true" else ""),
      Canon(MONGODB, HOST) := host, Canon(MONGODB, PORT) := portText, Canon(MONGODB, DB) := "admin",
      Canon(MONGODB, USERNAME) := "root", Canon(MONGODB, PASSWORD) := password]
  }

  lemma PortText()
    ensures Decimal(6379) == "6379" && Decimal(3306) == "3306" && Decimal(27017) == "27017"
  {
    assert Decimal(63) == "63" && Decimal(637) == "637";
    assert Decimal(33) == "33" && Decimal(330) == "330";
    assert Decimal(27) == "27" && Decimal(270) == "270" && Decimal(2701) == "2701";
  }

  function Value(digits: string): nat
    requires forall i :: 0 <= i < |digits| ==> '0' <= digits[i] <= '9'
  {
    if digits == [] then 0
    else Value(digits[..|digits| - 1]) * 10 + (digits[|digits| - 1] as int - '0' as int)
  }

  /** A port's text reads back as the port. */
  lemma {:induction false} DecimalReads(n: nat)
    ensures Decimal(n) != [] && forall i :: 0 <= i < |Decimal(n)| ==> '0' <= Decimal(n)[i] <= '9'
    ensures Value(Decimal(n)) == n
  {
    if n < 10 {
      assert Decimal(n)[..0] == [];
    } else {
      DecimalReads(n / 10);
      assert Decimal(n)[..|Decimal(n)| - 1] == Decimal(n / 10);
    }
  }

  function UrlKey(k: ManagedType): Canon {
    match k case Redis => Canon(REDIS, URL) case Mysql => Canon(MYSQL, URL) case Mongodb => Canon(MONGODB, URL)
  }

  function PortKey(k: ManagedType): Canon {
    match k case Redis => Canon(REDIS, PORT) case Mysql => Canon(MYSQL, PORT) case Mongodb => Canon(MONGODB, PORT)
  }

  function HostKey(k: ManagedType): Canon {
    match k case Redis => Canon(REDIS, HOST) case Mysql => Canon(MYSQL, HOST) case Mongodb => Canon(MONGODB, HOST)
  }

  function UserKey(k: ManagedType): Canon {
    match k case Redis => Canon(REDIS, USERNAME) case Mysql => Canon(MYSQL, USERNAME) case Mongodb => Canon(MONGODB, USERNAME)
  }

  function PasswordKey(k: ManagedType): Canon {
    match k case Redis => Canon(REDIS, PASSWORD) case Mysql => Canon(MYSQL, PASSWORD) case Mongodb => Canon(MONGODB, PASSWORD)
  }

  /** How a client of the type is told to connect, and that the lane speaks TLS where the URL can say so:
      redis by its scheme, mongodb by an option. */
  function Scheme(k: ManagedType, tls: bool): string {
    match k case Redis => (if tls then "rediss" else "redis") case Mysql => "mysql" case Mongodb => "mongodb"
  }

  function UrlPath(k: ManagedType, tls: bool): string {
    match k case Redis => "/0" case Mysql => "/app" case Mongodb => "/admin?authSource=admin" + if tls then "&tls=true" else ""
  }

  /** The URL of a bundle says what its single credentials say. */
  predicate UrlAgrees(m: map<Canon, string>, k: ManagedType, tls: bool, encode: string -> string)
    requires {UrlKey(k), PortKey(k), HostKey(k), UserKey(k), PasswordKey(k)} <= m.Keys
  {
    m[UrlKey(k)] == Url(Scheme(k, tls), m[UserKey(k)], encode(m[PasswordKey(k)]), m[HostKey(k)], m[PortKey(k)], UrlPath(k, tls))
  }

  /** On any lane: the address is the lane's, the URL says the same as the single credentials, and everything
      but the URL and the port is what the container's bundle has. */
  lemma LaneBundleReads(k: ManagedType, host: string, port: nat, password: string, tls: bool, encode: string -> string)
    ensures var lane, plain := LaneBundle(k, host, port, password, tls, encode), Bundle(k, host, password, encode);
      && lane.Keys == plain.Keys && {UrlKey(k), PortKey(k), HostKey(k), UserKey(k), PasswordKey(k)} <= lane.Keys
      && lane[HostKey(k)] == host && lane[PortKey(k)] == Decimal(port) && lane[PasswordKey(k)] == password
      && UrlAgrees(lane, k, tls, encode)
      && forall c :: c in lane && c != UrlKey(k) && c != PortKey(k) ==> lane[c] == plain[c]
  {
    BundleKeys(k, host, port, password, tls, encode);
  }

  /** The two bundles have one key set, the catalog's. */
  lemma BundleKeys(k: ManagedType, host: string, port: nat, password: string, tls: bool, encode: string -> string)
    ensures Bundle(k, host, password, encode).Keys == KeysOf(Managed(k))
    ensures LaneBundle(k, host, port, password, tls, encode).Keys == KeysOf(Managed(k))
  {
  }

  /** On the container's own address and without TLS they are the same credentials to the letter. */
  lemma BundlesAgree(k: ManagedType, host: string, password: string, encode: string -> string)
    ensures LaneBundle(k, host, Port(k), password, false, encode) == Bundle(k, host, password, encode)
  {
    PortText();
    assert "/admin?authSource=admin" + "" == "/admin?authSource=admin";
  }

  // ---- service ids ----

  function Prefix(t: Type): string {
    match t
    case Postgres => "pg-"
    case Storage => "st-"
    case Compute => "cp-"
    case Managed(Redis) => "rd-"
    case Managed(Mysql) => "my-"
    case Managed(Mongodb) => "mo-"
  }

  function ServiceId(t: Type, name: string): string { Prefix(t) + name }

  datatype Parsed = Parsed(branch: Option<string>, serviceId: string, kind: Type, name: string)

  /** What an id can say: a type and a name, and the branch it is on when it is qualified. */
  predicate IsId(p: Parsed) {
    && p.serviceId == ServiceId(p.kind, p.name) && p.name != "" && ':' !in p.serviceId
    && (p.branch.Some? ==> p.branch.value != "" && ':' !in p.branch.value)
  }

  function Spelled(p: Parsed): string {
    (if p.branch.Some? then p.branch.value + ":" else "") + p.serviceId
  }

  function IndexOf(s: string, c: char): (i: nat)
    ensures i <= |s| && c !in s[..i] && (i < |s| ==> s[i] == c)
  {
    if s == [] || s[0] == c then 0
    else
      var i := IndexOf(s[1..], c);
      assert s[..i + 1] == [s[0]] + s[1..][..i];
      1 + i
  }

  /** The prefixes in the order they are tried: the managed ones first. */
  const TRIED: seq<Type> := [Managed(Redis), Managed(Mysql), Managed(Mongodb), Postgres, Storage, Compute]

  /** An id some prefix claims: it has a name behind it. */
  predicate Claims(t: Type, bare: string) {
    |bare| > 3 && bare[..3] == Prefix(t)
  }

  lemma PrefixTells(t: Type, t': Type)
    ensures |Prefix(t)| == 3 && t in TRIED
    ensures Prefix(t) == Prefix(t') ==> t == t'
  {
    assert Prefix(t) == Prefix(t') ==> Prefix(t)[0] == Prefix(t')[0] && Prefix(t)[1] == Prefix(t')[1];
    assert t == TRIED[match t
      case Managed(Redis) => 0 case Managed(Mysql) => 1 case Managed(Mongodb) => 2
      case Postgres => 3 case Storage => 4 case Compute => 5];
  }

  lemma {:induction false} FirstColon(a: string, b: string)
    requires ':' !in a
    ensures IndexOf(a, ':') == |a| && IndexOf(a + ":" + b, ':') == |a|
  {
    if a == [] {
      assert (a + ":" + b)[0] == ':';
    } else {
      assert a[0] in a;
      FirstColon(a[1..], b);
      assert (a + ":" + b)[1..] == a[1..] + ":" + b && (a + ":" + b)[0] == a[0];
    }
  }

  function BranchOf(sid: string): Option<string> {
    var i := IndexOf(sid, ':');
    if i < |sid| then Some(sid[..i]) else None
  }

  function BareOf(sid: string): string {
    var i := IndexOf(sid, ':');
    if i < |sid| then sid[i + 1..] else sid
  }

  /** Cutting a spelled id at its first colon gives back what it says. */
  lemma SpelledCuts(p: Parsed)
    requires IsId(p)
    ensures BranchOf(Spelled(p)) == p.branch && BareOf(Spelled(p)) == p.serviceId
    ensures Claims(p.kind, p.serviceId) && p.serviceId[3..] == p.name
  {
    PrefixTells(p.kind, p.kind);
    if p.branch.Some? {
      FirstColon(p.branch.value, p.serviceId);
      assert (p.branch.value + ":" + p.serviceId)[|p.branch.value| + 1..] == p.serviceId;
      assert (p.branch.value + ":" + p.serviceId)[..|p.branch.value|] == p.branch.value;
    } else {
      FirstColon(p.serviceId, "");
      assert Spelled(p) == p.serviceId;
    }
  }

  /** ... and what says something is spelled. */
  lemma CutsSpell(sid: string, t: Type)
    requires BranchOf(sid) != Some("") && ':' !in BareOf(sid) && Claims(t, BareOf(sid))
    ensures var p := Parsed(BranchOf(sid), BareOf(sid), t, BareOf(sid)[3..]); IsId(p) && sid == Spelled(p)
  {
    var i, bare := IndexOf(sid, ':'), BareOf(sid);
    assert bare == bare[..3] + bare[3..];
    if i < |sid| {
      assert sid == sid[..i] + ":" + sid[i + 1..];
    } else {
      assert "" + sid == sid && sid[..i] == sid;
    }
  }

  /** `parseServiceId` is the exact inverse of spelling an id: it answers for those ids and no others. */
  method ParseServiceId(sid: string) returns (r: Option<Parsed>)
    ensures r.Some? ==> IsId(r.value) && sid == Spelled(r.value)
    ensures forall p :: IsId(p) && sid == Spelled(p) ==> r == Some(p)
  {
    var branch, bare := BranchOf(sid), BareOf(sid);
    forall p | IsId(p) && sid == Spelled(p)
      ensures p.branch == branch && p.serviceId == bare && Claims(p.kind, bare) && p.name == bare[3..]
    {
      SpelledCuts(p);
    }
    if branch == Some("") || bare == "" || ':' in bare {
      return None;
    }
    for k := 0 to |TRIED|
      invariant forall j :: 0 <= j < k ==> !Claims(TRIED[j], bare)
    {
      if Claims(TRIED[k], bare) {
        CutsSpell(sid, TRIED[k]);
        forall p | IsId(p) && sid == Spelled(p) ensures p.kind == TRIED[k] { PrefixTells(p.kind, TRIED[k]); }
        return Some(Parsed(branch, bare, TRIED[k], bare[3..]));
      }
    }
    forall p | IsId(p) && sid == Spelled(p) ensures p.kind in TRIED { PrefixTells(p.kind, p.kind); }
    r := None;
  }
}
