/** The project registry: profiles validated as a whole, namespaces that cannot collide, and the least free port. */
module Registry {
  import opened Schema

  const PORT_MIN := 1024
  const PORT_MAX := 65535

  /** A path by its components; one contains another when it is a prefix of it. */
  type Path = seq<string>

  datatype Entry = Entry(slug: string, repository: string, service: string, port: nat)

  datatype Fault =
    | UnsafeSlug(slug: string)
    | DuplicateSlug(slug: string)
    | DuplicateRepository(repository: string)
    | DuplicateService(service: string)
    | DuplicatePort(port: nat)
    | PortOutOfRange(port: nat)
    | DirectoryMismatch(directory: string, slug: string)
    | Overlap(left: Path, right: Path)

  predicate SlugStart(c: char) {
    'a' <= c <= 'z' || '0' <= c <= '9'
  }

  predicate SafeSlug(s: string) {
    1 <= |s| <= 64 && SlugStart(s[0]) && forall i :: 0 <= i < |s| ==> SlugStart(s[i]) || s[i] == '-'
  }

  predicate PathsOverlap(left: Path, right: Path) {
    left <= right || right <= left
  }

  /** The text between slashes. */
  function Split(s: string): (parts: seq<string>)
    ensures parts != []
  {
    if s == "" then [""]
    else if s[0] == '/' then [""] + Split(s[1..])
    else [[s[0]] + Split(s[1..])[0]] + Split(s[1..])[1..]
  }

  /** Empty components and single dots name nothing. */
  function Named(parts: seq<string>): Path {
    if parts == [] then []
    else if parts[0] in {"", "."} then Named(parts[1..])
    else [parts[0]] + Named(parts[1..])
  }

  /** `path / text`: the text's components are appended, and an absolute text starts over. */
  function Joined(path: Path, text: string): Path {
    if "/" <= text then [if "//" <= text && !("///" <= text) then "//" else "/"] + Named(Split(text))
    else path + Named(Split(text))
  }

  /** A safe slug is one component. */
  lemma {:induction false} SplitWhole(s: string)
    requires forall i :: 0 <= i < |s| ==> s[i] != '/'
    ensures Split(s) == [s]
  {
    if s != "" {
      SplitWhole(s[1..]);
      assert s == [s[0]] + s[1..];
    }
  }

  lemma SafeSlugIsComponent(path: Path, slug: string)
    requires SafeSlug(slug)
    ensures Joined(path, slug) == path + [slug]
  {
    SplitWhole(slug);
    assert slug[0] != '.' && slug[0] != '/';
    assert Named([slug]) == [slug] + Named([slug][1..]);
  }

  /** Every host namespace a project owns below the host root. */
  function NamespacesOf(home: Path, slug: string): (paths: seq<Path>)
    ensures |paths| == 9
  {
    var data := Joined(home + [".local", "share", "symphony-pilot", "deployments"], slug);
    var state := Joined(home + [".local", "state", "symphony-pilot"], slug);
    [data, Joined(home + ["symphony-workspaces"], slug), state,
     state + ["logs"], state + ["symphony.pid"], state + ["locks"], state + ["symphony-awake.json"],
     Joined(data + ["projects"], slug) + ["WORKFLOW.md"],
     Joined(home + [".config", "symphony-pilot", "secrets"], slug)]
  }

  lemma {:induction false} SplitAtSlash(s: string, rest: string)
    requires forall i :: 0 <= i < |s| ==> s[i] != '/'
    ensures Split(s + "/" + rest) == [s] + Split(rest)
  {
    var all := s + "/" + rest;
    if s == "" {
      assert all[1..] == rest;
    } else {
      SplitAtSlash(s[1..], rest);
      assert all[1..] == s[1..] + "/" + rest && s == [s[0]] + s[1..];
    }
  }

  /** With a slash in a slug namespaces do overlap: one project's workspaces would contain another's. */
  lemma SlashesOverlap(home: Path, a: string, b: string)
    requires SafeSlug(a) && SafeSlug(b)
    ensures a + "/" + b != a && !SafeSlug(a + "/" + b)
    ensures PathsOverlap(NamespacesOf(home, a)[1], NamespacesOf(home, a + "/" + b)[1])
  {
    var root, nested := home + ["symphony-workspaces"], a + "/" + b;
    SafeSlugIsComponent(root, a);
    SplitAtSlash(a, b);
    SplitWhole(b);
    assert nested[|a|] == '/' && nested[0] == a[0] && b[0] != '.';
    assert Named([b]) == [b] + Named([b][1..]);
    assert [a, b][1..] == [b] && Named([a, b]) == [a] + Named([b]);
    assert Joined(root, nested) == root + [a, b];
  }

  /** Which of the four roots a namespace lies under, and where in the path its slug stands. */
  predicate Rooted(home: Path, path: Path, slug: string) {
    && home <= path
    && var rest := path[|home|..];
    || (|rest| >= 5 && rest[..4] == [".local", "share", "symphony-pilot", "deployments"] && rest[4] == slug)
    || (|rest| >= 2 && rest[0] == "symphony-workspaces" && rest[1] == slug)
    || (|rest| >= 4 && rest[..3] == [".local", "state", "symphony-pilot"] && rest[3] == slug)
    || (|rest| >= 4 && rest[..3] == [".config", "symphony-pilot", "secrets"] && rest[3] == slug)
  }

  lemma NamespacesAreRooted(home: Path, slug: string)
    requires SafeSlug(slug)
    ensures forall i :: 0 <= i < 9 ==> Rooted(home, NamespacesOf(home, slug)[i], slug)
  {
    var all := NamespacesOf(home, slug);
    SafeSlugIsComponent(home + [".local", "share", "symphony-pilot", "deployments"], slug);
    SafeSlugIsComponent(home + [".local", "state", "symphony-pilot"], slug);
    SafeSlugIsComponent(home + ["symphony-workspaces"], slug);
    SafeSlugIsComponent(home + [".config", "symphony-pilot", "secrets"], slug);
    SafeSlugIsComponent(all[0] + ["projects"], slug);
    forall i | 0 <= i < 9
      ensures Rooted(home, all[i], slug)
    {
      var rest := all[i][|home|..];
      if i == 0 || i == 7 {
        assert rest[..4] == [".local", "share", "symphony-pilot", "deployments"];
      } else if i == 1 {
        assert rest == ["symphony-workspaces", slug];
      } else if i == 8 {
        assert rest[..3] == [".config", "symphony-pilot", "secrets"];
      } else {
        assert all[2] <= all[i] && all[2][|home|..] == [".local", "state", "symphony-pilot", slug];
        assert rest[..3] == all[2][|home|..][..3];
      }
    }
  }

  /** Below the same root the slug is at the same place, and no two roots share a first step. */
  lemma RootedApart(home: Path, p: Path, q: Path, a: string, b: string)
    requires Rooted(home, p, a) && Rooted(home, q, b) && p <= q
    ensures a == b
  {
    var x, y := p[|home|..], q[|home|..];
    assert forall i :: 0 <= i < |x| ==> y[i] == x[i];
    if |x| >= 4 && x[..3] == [".local", "state", "symphony-pilot"] {
      assert x[0] == ".local" && x[1] == "state";
    }
    if |y| >= 4 && y[..3] == [".local", "state", "symphony-pilot"] {
      assert y[..3][0] == y[0] && y[..3][1] == y[1];
      assert y[0] == ".local" && y[1] == "state";
    }
    if |x| >= 4 && x[..3] == [".config", "symphony-pilot", "secrets"] {
      assert x[..3][0] == x[0];
    }
    if |y| >= 4 && y[..3] == [".config", "symphony-pilot", "secrets"] {
      assert y[..3][0] == y[0];
    }
    if |x| >= 5 && x[..4] == [".local", "share", "symphony-pilot", "deployments"] {
      assert x[..4][0] == x[0] && x[..4][1] == x[1];
    }
    if |y| >= 5 && y[..4] == [".local", "share", "symphony-pilot", "deployments"] {
      assert y[..4][0] == y[0] && y[..4][1] == y[1];
    }
  }

  /** Projects with different safe slugs own namespaces that never overlap, whatever the host root. */
  lemma NamespacesNeverOverlap(home: Path, a: string, b: string, i: nat, j: nat)
    requires SafeSlug(a) && SafeSlug(b) && a != b && i < 9 && j < 9
    ensures !PathsOverlap(NamespacesOf(home, a)[i], NamespacesOf(home, b)[j])
  {
    NamespacesAreRooted(home, a);
    NamespacesAreRooted(home, b);
    var p, q := NamespacesOf(home, a)[i], NamespacesOf(home, b)[j];
    if p <= q {
      RootedApart(home, p, q, a, b);
    } else if q <= p {
      RootedApart(home, q, p, b, a);
    }
  }

  /* ---------- Validation ---------- */

  predicate EntryFits(entries: seq<Entry>, directories: seq<string>, k: nat)
    requires k < |entries| && (directories == [] || |directories| == |entries|)
  {
    var e := entries[k];
    && SafeSlug(e.slug) && PORT_MIN <= e.port <= PORT_MAX
    && (directories != [] ==> directories[k] == e.slug)
    && forall i :: 0 <= i < k ==>
         entries[i].slug != e.slug && entries[i].repository != e.repository
         && entries[i].service != e.service && entries[i].port != e.port
  }

  /** The registry is valid: every profile is well formed in itself and shares no identity with an earlier one. */
  predicate RegistryOk(entries: seq<Entry>, directories: seq<string>) {
    && (directories == [] || |directories| == |entries|)
    && forall k :: 0 <= k < |entries| ==> EntryFits(entries, directories, k)
  }

  const SLUG: Entry -> string := (e: Entry) => e.slug
  const REPOSITORY: Entry -> string := (e: Entry) => e.repository
  const SERVICE: Entry -> string := (e: Entry) => e.service
  const PORT: Entry -> nat := (e: Entry) => e.port

  /** What the entries are identified by, in one respect. */
  function Values<T(==)>(entries: seq<Entry>, identity: Entry -> T): set<T> {
    set i | 0 <= i < |entries| :: identity(entries[i])
  }

  lemma OneMoreValue<T>(entries: seq<Entry>, k: nat, identity: Entry -> T)
    requires k < |entries|
    ensures Values(entries[..k + 1], identity) == Values(entries[..k], identity) + {identity(entries[k])}
  {
    var now := entries[..k + 1];
    assert now[k] == entries[k] && forall i :: 0 <= i < k ==> now[i] == entries[..k][i];
  }

  /** An entry fits when nothing it is identified by was met before. */
  lemma FitsWhenUnseen(entries: seq<Entry>, directories: seq<string>, k: nat)
    requires k < |entries| && (directories == [] || |directories| == |entries|)
    ensures var e, before := entries[k], entries[..k];
      EntryFits(entries, directories, k) <==>
        && SafeSlug(e.slug) && PORT_MIN <= e.port <= PORT_MAX && (directories != [] ==> directories[k] == e.slug)
        && e.slug !in Values(before, SLUG) && e.repository !in Values(before, REPOSITORY)
        && e.service !in Values(before, SERVICE) && e.port !in Values(before, PORT)
  {
    var e, before := entries[k], entries[..k];
    forall i | 0 <= i < k
      ensures before[i] == entries[i] && entries[i].slug in Values(before, SLUG)
        && entries[i].repository in Values(before, REPOSITORY)
      ensures entries[i].service in Values(before, SERVICE) && entries[i].port in Values(before, PORT)
    {
      assert before[i] == entries[i];
    }
  }

  method CheckEntries(entries: seq<Entry>, directories: seq<string>) returns (faults: seq<Fault>)
    requires directories == [] || |directories| == |entries|
    ensures faults == [] <==> RegistryOk(entries, directories)
  {
    faults := [];
    var slugs: set<string>, repositories: set<string>, services: set<string>, ports: set<nat> := {}, {}, {}, {};
    for k := 0 to |entries|
      invariant slugs == Values(entries[..k], SLUG) && repositories == Values(entries[..k], REPOSITORY)
      invariant services == Values(entries[..k], SERVICE) && ports == Values(entries[..k], PORT)
      invariant faults == [] <==> forall j :: 0 <= j < k ==> EntryFits(entries, directories, j)
    {
      var e := entries[k];
      FitsWhenUnseen(entries, directories, k);
      OneMoreValue(entries, k, SLUG);
      OneMoreValue(entries, k, REPOSITORY);
      OneMoreValue(entries, k, SERVICE);
      OneMoreValue(entries, k, PORT);
      if !SafeSlug(e.slug) { faults := faults + [UnsafeSlug(e.slug)]; }
      if e.slug in slugs { faults := faults + [DuplicateSlug(e.slug)]; }
      if e.repository in repositories { faults := faults + [DuplicateRepository(e.repository)]; }
      if e.service in services { faults := faults + [DuplicateService(e.service)]; }
      if e.port in ports { faults := faults + [DuplicatePort(e.port)]; }
      if !(PORT_MIN <= e.port <= PORT_MAX) { faults := faults + [PortOutOfRange(e.port)]; }
      if directories != [] && directories[k] != e.slug {
        faults := faults + [DirectoryMismatch(directories[k], e.slug)];
      }
      slugs, repositories := slugs + {e.slug}, repositories + {e.repository};
      services, ports := services + {e.service}, ports + {e.port};
    }
  }

  datatype Owned = Owned(slug: string, path: Path)

  /** The namespace belongs to one of the projects. */
  predicate OwnedByOne(home: Path, entries: seq<Entry>, o: Owned) {
    exists k :: 0 <= k < |entries| && o.slug == entries[k].slug && o.path in NamespacesOf(home, entries[k].slug)
  }

  method ListNamespaces(home: Path, entries: seq<Entry>) returns (all: seq<Owned>)
    ensures forall o :: o in all <==> OwnedByOne(home, entries, o)
  {
    all := [];
    for k := 0 to |entries|
      invariant forall o :: o in all <==> OwnedByOne(home, entries[..k], o)
    {
      var paths := NamespacesOf(home, entries[k].slug);
      ghost var before := all;
      for i := 0 to 9
        invariant forall o :: o in all <==> o in before || (o.slug == entries[k].slug && o.path in paths[..i])
      {
        all := all + [Owned(entries[k].slug, paths[i])];
      }
      assert paths[..9] == paths;
      OneMoreOwner(home, entries, k);
    }
    assert entries[..|entries|] == entries;
  }

  lemma OneMoreOwner(home: Path, entries: seq<Entry>, k: nat)
    requires k < |entries|
    ensures forall o :: OwnedByOne(home, entries[..k + 1], o) <==>
      OwnedByOne(home, entries[..k], o) || (o.slug == entries[k].slug && o.path in NamespacesOf(home, entries[k].slug))
  {
    var now := entries[..k + 1];
    assert now[k] == entries[k] && forall i :: 0 <= i < k ==> now[i] == entries[..k][i];
  }

  /** The namespaces of different projects do not overlap. */
  predicate Clear(x: Owned, y: Owned) {
    x.slug == y.slug || !PathsOverlap(x.path, y.path)
  }

  predicate AllClear(all: seq<Owned>, n: nat)
    requires n <= |all|
  {
    forall l, r :: 0 <= l < n && l < r < |all| ==> Clear(all[l], all[r])
  }

  /** The pairwise comparison of namespaces across projects; each unordered pair is compared once. */
  method CheckNamespaces(home: Path, entries: seq<Entry>) returns (faults: seq<Fault>)
    ensures faults == [] <==>
      forall x, y :: OwnedByOne(home, entries, x) && OwnedByOne(home, entries, y) ==> Clear(x, y)
  {
    var all := ListNamespaces(home, entries);
    faults := [];
    for l := 0 to |all|
      invariant faults == [] <==> AllClear(all, l)
    {
      for r := l + 1 to |all|
        invariant faults == [] <==> AllClear(all, l) && forall k :: l < k < r ==> Clear(all[l], all[k])
      {
        var left, right := all[l], all[r];
        if left.slug != right.slug && PathsOverlap(left.path, right.path) {
          faults := faults + [Overlap(left.path, right.path)];
        }
      }
    }
    PairsSuffice(all);
    assert (forall x, y :: x in all && y in all ==> Clear(x, y)) <==>
      forall x, y :: OwnedByOne(home, entries, x) && OwnedByOne(home, entries, y) ==> Clear(x, y);
  }

  lemma PairsSuffice(all: seq<Owned>)
    ensures AllClear(all, |all|) <==> forall x, y :: x in all && y in all ==> Clear(x, y)
  {
    if AllClear(all, |all|) {
      forall x, y | x in all && y in all
        ensures Clear(x, y)
      {
        var l :| 0 <= l < |all| && all[l] == x;
        var r :| 0 <= r < |all| && all[r] == y;
        assert l < r ==> Clear(all[l], all[r]);
        assert r < l ==> Clear(all[r], all[l]);
      }
    }
  }

  /** Among safe slugs the comparison never finds anything. */
  lemma SafeSlugsAreClear(home: Path, entries: seq<Entry>, x: Owned, y: Owned)
    requires forall k :: 0 <= k < |entries| ==> SafeSlug(entries[k].slug)
    requires OwnedByOne(home, entries, x) && OwnedByOne(home, entries, y)
    ensures Clear(x, y)
  {
    if x.slug != y.slug {
      var i :| 0 <= i < 9 && x.path == NamespacesOf(home, x.slug)[i];
      var j :| 0 <= j < 9 && y.path == NamespacesOf(home, y.slug)[j];
      NamespacesNeverOverlap(home, x.slug, y.slug, i, j);
    }
  }

  lemma ValidIsClear(home: Path, entries: seq<Entry>, directories: seq<string>)
    requires RegistryOk(entries, directories)
    ensures forall x, y :: OwnedByOne(home, entries, x) && OwnedByOne(home, entries, y) ==> Clear(x, y)
  {
    forall k | 0 <= k < |entries|
      ensures SafeSlug(entries[k].slug)
    {
      assert EntryFits(entries, directories, k);
    }
    forall x, y | OwnedByOne(home, entries, x) && OwnedByOne(home, entries, y)
      ensures Clear(x, y)
    {
      SafeSlugsAreClear(home, entries, x, y);
    }
  }

  /** Validation accepts exactly the registries whose profiles are well formed and share no identity. */
  method ValidateProfiles(home: Path, entries: seq<Entry>, directories: seq<string>) returns (ok: bool)
    ensures ok <==> RegistryOk(entries, directories)
  {
    if directories != [] && |directories| != |entries| {
      return false;
    }
    var faults := CheckEntries(entries, directories);
    var overlaps := CheckNamespaces(home, entries);
    if faults == [] {
      ValidIsClear(home, entries, directories);
    }
    ok := faults + overlaps == [];
  }

  /* ---------- Ports ---------- */

  function Range(lo: nat, hi: nat): set<nat> {
    if lo >= hi then {} else Range(lo, hi - 1) + {hi - 1}
  }

  lemma {:induction false} RangeMeans(lo: nat, hi: nat)
    requires lo <= hi
    ensures forall p: nat :: p in Range(lo, hi) <==> lo <= p < hi
    ensures |Range(lo, hi)| == hi - lo
    decreases hi
  {
    if lo < hi {
      RangeMeans(lo, hi - 1);
    }
  }

  /** Distinct ports are as many as there are profiles. */
  lemma {:induction false} PortsCount(entries: seq<Entry>)
    requires forall i, j :: 0 <= i < j < |entries| ==> entries[i].port != entries[j].port
    ensures |Values(entries, PORT)| == |entries|
  {
    if entries == [] {
      assert Values(entries, PORT) == {};
    } else {
      var k := |entries| - 1;
      PortsCount(entries[..k]);
      OneMoreValue(entries, k, PORT);
      assert entries[..k + 1] == entries;
      assert entries[k].port !in Values(entries[..k], PORT);
    }
  }

  lemma SubsetOfSameSize(a: set<nat>, b: set<nat>)
    requires a <= b
    ensures |a| <= |b| && (|a| == |b| ==> a == b)
  {
    assert |b - a| == |b| - |a|;
    if a != b {
      assert b - a != {};
    }
  }

  /** Values taken from a range fill it exactly when they are as many as it holds. */
  lemma Pigeonhole(taken: set<nat>, lo: nat, hi: nat)
    requires lo <= hi && forall p :: p in taken ==> lo <= p < hi
    ensures |taken| <= hi - lo
    ensures (forall p: nat :: lo <= p < hi ==> p in taken) <==> |taken| == hi - lo
  {
    RangeMeans(lo, hi);
    var all := Range(lo, hi);
    assert taken <= all;
    SubsetOfSameSize(taken, all);
    if forall p: nat :: lo <= p < hi ==> p in taken {
      assert all <= taken;
      assert taken == all;
    }
  }

  /** Every port of the range is taken exactly when there are as many valid profiles as ports: 64,512. */
  lemma ExhaustedExactlyWhenFull(entries: seq<Entry>, directories: seq<string>)
    requires RegistryOk(entries, directories)
    ensures |entries| <= 64512
    ensures (forall p: nat :: PORT_MIN <= p < PORT_MAX + 1 ==> p in Values(entries, PORT)) <==> |entries| == 64512
  {
    forall i, j | 0 <= i < j < |entries|
      ensures entries[i].port != entries[j].port
    {
      assert EntryFits(entries, directories, j);
    }
    PortsCount(entries);
    forall p | p in Values(entries, PORT)
      ensures PORT_MIN <= p < PORT_MAX + 1
    {
      var i :| 0 <= i < |entries| && entries[i].port == p;
      assert EntryFits(entries, directories, i);
    }
    Pigeonhole(Values(entries, PORT), PORT_MIN, PORT_MAX + 1);
  }

  /** The least port no profile has; None exactly when all 64,512 are taken. */
  method SuggestPort(entries: seq<Entry>, directories: seq<string>) returns (port: Option<nat>)
    requires RegistryOk(entries, directories)
    ensures port.None? <==> |entries| == 64512
    ensures port.Some? ==>
      && PORT_MIN <= port.value <= PORT_MAX && port.value !in Values(entries, PORT)
      && forall p :: PORT_MIN <= p < port.value ==> p in Values(entries, PORT)
  {
    ExhaustedExactlyWhenFull(entries, directories);
    var taken := Values(entries, PORT);
    for p := PORT_MIN to PORT_MAX + 1
      invariant forall q: nat :: PORT_MIN <= q < p ==> q in taken
    {
      if p !in taken {
        return Some(p);
      }
    }
    port := None;
  }
}
