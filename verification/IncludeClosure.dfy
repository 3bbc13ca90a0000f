/** The include closure of one compilation unit: a worklist over `#include` directives.

    The disk answers two questions that need not agree: `isFile`, whether `directory / name` names a
    file, and `readable`, what reading a normalized path yields, its digest and directives. `join`
    stands for the absolute, non-realpath normalization of `directory / name` and `parent` for the
    directory of a file. */
module IncludeClosure {
  import opened Prelude

  type Path = string

  datatype Directive = Directive(name: string, quoted: bool)
  datatype Source = Source(digest: Bytes, directives: seq<Directive>)
  datatype Disk = Disk(isFile: (Path, string) -> bool, readable: map<Path, Source>, dirs: set<Path>,
                       join: (Path, string) -> Path, parent: Path -> Path)

  datatype Edge = Edge(parent: Path, name: string, dependency: Path)

  // `order` is the insertion order of the `files` dictionary.
  datatype Closure = Closure(root: Path, order: seq<Path>, files: map<Path, Bytes>, edges: seq<Edge>)

  // ---- Resolution of one directive -------------------------------------------------------------

  // The first search directory that holds the named file wins.
  function FirstFile(disk: Disk, name: string, search: seq<Path>): (r: Option<Path>)
    ensures r.Some? <==> exists i | 0 <= i < |search| :: disk.isFile(search[i], name)
    ensures r.Some? ==>
              exists i | 0 <= i < |search| ::
                && r.value == disk.join(search[i], name) && disk.isFile(search[i], name)
                && forall j | 0 <= j < i :: !disk.isFile(search[j], name)
  {
    if search == [] then None
    else if disk.isFile(search[0], name) then Some(disk.join(search[0], name))
    else
      var r := FirstFile(disk, name, search[1..]);
      assert forall i | 0 < i < |search| :: search[i] == search[1..][i - 1];
      assert r.Some? ==>
               var i :| 0 <= i < |search[1..]| && r.value == disk.join(search[1..][i], name)
                        && disk.isFile(search[1..][i], name) && forall j | 0 <= j < i :: !disk.isFile(search[1..][j], name);
               && r.value == disk.join(search[i + 1], name)
               && forall j | 0 <= j < i + 1 :: !disk.isFile(search[j], name);
      r
  }

  // A quoted include looks beside the including file first.
  function Resolve(disk: Disk, d: Directive, including: Path, roots: seq<Path>): Option<Path> {
    FirstFile(disk, d.name, (if d.quoted then [disk.parent(including)] else []) + roots)
  }

  // Only include directories that exist are searched.
  function Roots(disk: Disk, includeDirs: seq<Path>): seq<Path> {
    if includeDirs == [] then []
    else (if includeDirs[0] in disk.dirs then [includeDirs[0]] else []) + Roots(disk, includeDirs[1..])
  }

  // ---- The include graph -----------------------------------------------------------------------

  // One edge per directive that resolves, in the order of the directives.
  function EdgesFrom(disk: Disk, roots: seq<Path>, p: Path, ds: seq<Directive>): (es: seq<Edge>)
    ensures forall e | e in es :: e.parent == p
  {
    if ds == [] then []
    else
      var r := Resolve(disk, ds[0], p, roots);
      (if r.Some? then [Edge(p, ds[0].name, r.value)] else []) + EdgesFrom(disk, roots, p, ds[1..])
  }

  function EdgesOf(disk: Disk, roots: seq<Path>, p: Path): seq<Edge> {
    if p in disk.readable then EdgesFrom(disk, roots, p, disk.readable[p].directives) else []
  }

  predicate Includes(disk: Disk, roots: seq<Path>, p: Path, q: Path) {
    exists e | e in EdgesOf(disk, roots, p) :: e.dependency == q
  }

  ghost predicate IsChain(disk: Disk, roots: seq<Path>, chain: seq<Path>, p: Path, q: Path) {
    && |chain| > 0 && chain[0] == p && chain[|chain| - 1] == q
    && forall i | 0 <= i < |chain| - 1 :: Includes(disk, roots, chain[i], chain[i + 1])
  }

  ghost predicate Reaches(disk: Disk, roots: seq<Path>, p: Path, q: Path) {
    exists chain :: IsChain(disk, roots, chain, p, q)
  }

  lemma ReachesSelf(disk: Disk, roots: seq<Path>, p: Path)
    ensures Reaches(disk, roots, p, p)
  {
    assert IsChain(disk, roots, [p], p, p);
  }

  lemma ReachesNext(disk: Disk, roots: seq<Path>, p: Path, q: Path, r: Path)
    requires Reaches(disk, roots, p, q) && Includes(disk, roots, q, r)
    ensures Reaches(disk, roots, p, r)
  {
    hide Includes;
    var chain :| IsChain(disk, roots, chain, p, q);
    var longer := chain + [r];
    assert forall i | 0 <= i < |longer| - 1 :: Includes(disk, roots, longer[i], longer[i + 1]);
    assert IsChain(disk, roots, longer, p, r);
  }

  // A set of files that holds the root and whatever its members include holds all that is reachable.
  lemma {:induction false} ClosedHoldsReachable(disk: Disk, roots: seq<Path>, s: set<Path>, chain: seq<Path>, p: Path, q: Path)
    requires p in s && forall x, y | x in s && Includes(disk, roots, x, y) :: y in s
    requires IsChain(disk, roots, chain, p, q)
    ensures q in s
    decreases |chain|
  {
    if |chain| > 1 {
      var rest := chain[1..];
      forall i | 0 <= i < |rest| - 1 ensures Includes(disk, roots, rest[i], rest[i + 1]) {
        assert Includes(disk, roots, chain[i + 1], chain[i + 2]);
      }
      assert Includes(disk, roots, chain[0], chain[1]);
      ClosedHoldsReachable(disk, roots, s, rest, chain[1], q);
    }
  }

  // ---- The worklist ----------------------------------------------------------------------------

  predicate Distinct<T(==)>(s: seq<T>) {
    forall i, j | 0 <= i < j < |s| :: s[i] != s[j]
  }

  // The insertion order of a dictionary: each key once.
  ghost predicate ListsKeys<K(!new), V>(order: seq<K>, m: map<K, V>) {
    Distinct(order) && forall p :: p in order <==> p in m
  }

  lemma ListMore<K(!new), V>(order: seq<K>, m: map<K, V>, k: K, v: V)
    requires ListsKeys(order, m) && k !in m
    ensures ListsKeys(order + [k], m[k := v])
  {
    assert forall p :: p in order + [k] <==> p in order || p == k;
  }

  // Exactly the files reachable from the root, each with its digest, and exactly one edge per
  // resolved directive of each of them.
  ghost predicate IsClosure(disk: Disk, roots: seq<Path>, root: Path, c: Closure) {
    && c.root == root
    && (forall p :: p in c.files <==> Reaches(disk, roots, root, p))
    && (forall p | p in c.files :: p in disk.readable && c.files[p] == disk.readable[p].digest)
    && ListsKeys(c.order, c.files)
    && EdgesCounted(disk, roots, c.files, c.edges)
  }

  // How often each edge has been recorded while `files` have been visited.
  ghost predicate EdgesCounted(disk: Disk, roots: seq<Path>, files: map<Path, Bytes>, edges: seq<Edge>) {
    forall e :: multiset(edges)[e] == if e.parent in files then multiset(EdgesOf(disk, roots, e.parent))[e] else 0
  }

  // Only dependencies of these edges were queued, and each of them is visited or queued.
  ghost predicate Scanned(es: seq<Edge>, files: map<Path, Bytes>, pending: seq<Path>, pending': seq<Path>) {
    && (forall p | p in pending' :: p in pending || exists e | e in es :: e.dependency == p)
    && (forall e | e in es :: e.dependency in files || e.dependency in pending')
  }

  // Everything seen so far is reachable, and everything a visited file includes is visited or queued.
  ghost predicate Seen(disk: Disk, roots: seq<Path>, root: Path, pending: seq<Path>, files: map<Path, Bytes>) {
    && (root in files || root in pending)
    && (forall p | p in pending :: Reaches(disk, roots, root, p))
    && (forall p | p in files :: Reaches(disk, roots, root, p) && p in disk.readable && files[p] == disk.readable[p].digest)
    && (forall p, e | p in files && e in EdgesOf(disk, roots, p) :: e.dependency in files || e.dependency in pending)
  }

  lemma VisitKeepsSeen(disk: Disk, roots: seq<Path>, root: Path, pending: seq<Path>, files: map<Path, Bytes>, path: Path,
                       pending': seq<Path>)
    requires Seen(disk, roots, root, pending + [path], files) && path !in files && path in disk.readable
    requires pending <= pending'
    requires Scanned(EdgesOf(disk, roots, path), files[path := disk.readable[path].digest], pending, pending')
    ensures Seen(disk, roots, root, pending', files[path := disk.readable[path].digest])
  {
    var files' := files[path := disk.readable[path].digest];
    assert path in pending + [path];
    forall p | p in pending' ensures Reaches(disk, roots, root, p) {
      if p in pending {
        assert p in pending + [path];
      } else {
        assert Includes(disk, roots, path, p);
        ReachesNext(disk, roots, root, path, p);
      }
    }
    forall p, e | p in files' && e in EdgesOf(disk, roots, p) ensures e.dependency in files' || e.dependency in pending' {
      if p != path { assert e.dependency in files || e.dependency in pending + [path]; }
    }
  }

  lemma SkipKeepsSeen(disk: Disk, roots: seq<Path>, root: Path, pending: seq<Path>, files: map<Path, Bytes>, path: Path)
    requires Seen(disk, roots, root, pending + [path], files) && path in files
    ensures Seen(disk, roots, root, pending, files)
  {
    forall p | p in pending ensures p in pending + [path] {}
    forall p, e | p in files && e in EdgesOf(disk, roots, p) ensures e.dependency in files || e.dependency in pending {
      assert e.dependency in files || e.dependency in pending + [path];
    }
  }

  lemma Initially(disk: Disk, roots: seq<Path>, root: Path)
    ensures Seen(disk, roots, root, [root], map[])
    ensures EdgesCounted(disk, roots, map[], [])
    ensures ListsKeys<Path, Bytes>([], map[])
  {
    ReachesSelf(disk, roots, root);
  }

  lemma Finally(disk: Disk, roots: seq<Path>, root: Path, c: Closure)
    requires Seen(disk, roots, root, [], c.files) && c.root == root
    requires EdgesCounted(disk, roots, c.files, c.edges) && ListsKeys(c.order, c.files)
    ensures IsClosure(disk, roots, root, c)
  {
    forall p | Reaches(disk, roots, root, p) ensures p in c.files {
      var chain :| IsChain(disk, roots, chain, root, p);
      ClosedHoldsReachable(disk, roots, c.files.Keys, chain, root, p);
    }
  }

  // Some file that has to be read cannot be: the root, or one an include resolved to.
  ghost predicate ReachesUnreadable(disk: Disk, roots: seq<Path>, root: Path) {
    exists p :: Reaches(disk, roots, root, p) && p !in disk.readable
  }

  // Terminates on cyclic includes as well; it fails exactly when a reachable file cannot be read.
  method SourceClosure(disk: Disk, root: Path, includeDirs: seq<Path>) returns (r: Option<Closure>)
    ensures r.None? <==> ReachesUnreadable(disk, Roots(disk, includeDirs), root)
    ensures r.Some? ==> IsClosure(disk, Roots(disk, includeDirs), root, r.value)
  {
    hide Seen, EdgesCounted, ListsKeys, Scanned, EdgesOf, Roots, Reaches, IsClosure, ReachesUnreadable;
    var roots := Roots(disk, includeDirs);
    var pending := [root];
    var order: seq<Path>, files: map<Path, Bytes>, edges: seq<Edge> := [], map[], [];
    Initially(disk, roots, root);
    while pending != []
      invariant Seen(disk, roots, root, pending, files)
      invariant files.Keys <= disk.readable.Keys
      invariant ListsKeys(order, files)
      invariant EdgesCounted(disk, roots, files, edges)
      decreases |disk.readable.Keys - files.Keys|, |pending|
    {
      var path := pending[|pending| - 1];
      ghost var stacked := pending;
      pending := pending[..|pending| - 1];
      SplitLast(stacked);
      if path in files {
        SkipKeepsSeen(disk, roots, root, pending, files, path);
        continue;
      }
      if path !in disk.readable {
        PendingIsReached(disk, roots, root, stacked, files, path);
        return None;
      }
      ghost var filesBefore, edgesBefore, pendingBefore := files, edges, pending;
      ListMore(order, files, path, disk.readable[path].digest);
      order, files := order + [path], files[path := disk.readable[path].digest];
      edges, pending := Scan(disk, roots, path, files, edges, pending);
      FewerLeft(disk.readable, filesBefore, files, path);
      VisitKeepsSeen(disk, roots, root, pendingBefore, filesBefore, path, pending);
      CountsAfterScan(disk, roots, path, filesBefore, files, edgesBefore, edges);
    }
    r := Some(Closure(root, order, files, edges));
    Finally(disk, roots, root, r.value);
    ClosureIsReadable(disk, roots, root, r.value);
  }

  lemma ClosureIsReadable(disk: Disk, roots: seq<Path>, root: Path, c: Closure)
    requires IsClosure(disk, roots, root, c)
    ensures !ReachesUnreadable(disk, roots, root)
  {
    hide Reaches, EdgesCounted, ListsKeys;
  }

  lemma FewerLeft(all: map<Path, Source>, before: map<Path, Bytes>, after: map<Path, Bytes>, path: Path)
    requires path in all && path !in before && after.Keys == before.Keys + {path}
    ensures |all.Keys - after.Keys| < |all.Keys - before.Keys|
  {
    assert all.Keys - after.Keys == all.Keys - before.Keys - {path};
  }

  lemma PendingIsReached(disk: Disk, roots: seq<Path>, root: Path, pending: seq<Path>, files: map<Path, Bytes>, path: Path)
    requires Seen(disk, roots, root, pending, files) && path in pending && path !in disk.readable
    ensures ReachesUnreadable(disk, roots, root)
  {
    hide Reaches;
  }

  lemma SplitLast<T>(s: seq<T>)
    requires s != []
    ensures s == s[..|s| - 1] + [s[|s| - 1]]
  {
  }

  // The inner loop: record each resolved directive of `path` and queue what has not been seen.
  method Scan(disk: Disk, roots: seq<Path>, path: Path, files: map<Path, Bytes>, edges: seq<Edge>, pending: seq<Path>)
    returns (edges': seq<Edge>, pending': seq<Path>)
    requires path in disk.readable
    ensures edges' == edges + EdgesOf(disk, roots, path)
    ensures pending <= pending' && Scanned(EdgesOf(disk, roots, path), files, pending, pending')
  {
    var directives := disk.readable[path].directives;
    edges', pending' := edges, pending;
    ScannedNothing(files, pending);
    assert directives[..0] == [] && directives[..|directives|] == directives;
    hide Resolve, Scanned, EdgesFrom;
    EdgesFromNone(disk, roots, path);
    for i := 0 to |directives|
      invariant edges' == edges + EdgesFrom(disk, roots, path, directives[..i])
      invariant pending <= pending'
      invariant Scanned(EdgesFrom(disk, roots, path, directives[..i]), files, pending, pending')
    {
      EdgesFromNext(disk, roots, path, directives, i);
      var dependency := Resolve(disk, directives[i], path, roots);
      if dependency.Some? {
        var edge := Edge(path, directives[i].name, dependency.value);
        ScannedOne(EdgesFrom(disk, roots, path, directives[..i]), files, pending, pending', edge);
        edges' := edges' + [edge];
        if dependency.value !in files { pending' := pending' + [dependency.value]; }
      }
    }
  }

  lemma EdgesFromNone(disk: Disk, roots: seq<Path>, p: Path)
    ensures EdgesFrom(disk, roots, p, []) == []
  {
  }

  function EdgeFor(disk: Disk, roots: seq<Path>, p: Path, d: Directive): seq<Edge> {
    var r := Resolve(disk, d, p, roots);
    if r.Some? then [Edge(p, d.name, r.value)] else []
  }

  lemma EdgesFromNext(disk: Disk, roots: seq<Path>, p: Path, ds: seq<Directive>, i: nat)
    requires i < |ds|
    ensures EdgesFrom(disk, roots, p, ds[..i + 1]) == EdgesFrom(disk, roots, p, ds[..i]) + EdgeFor(disk, roots, p, ds[i])
  {
    assert ds[..i + 1] == ds[..i] + [ds[i]];
    EdgesFromSnoc(disk, roots, p, ds[..i], ds[i]);
  }

  lemma {:induction false} EdgesFromSnoc(disk: Disk, roots: seq<Path>, p: Path, ds: seq<Directive>, d: Directive)
    ensures EdgesFrom(disk, roots, p, ds + [d]) == EdgesFrom(disk, roots, p, ds) + EdgeFor(disk, roots, p, d)
  {
    hide Resolve;
    if ds == [] {
      assert ds + [d] == [d] && [d][1..] == [];
    } else {
      assert (ds + [d])[1..] == ds[1..] + [d];
      EdgesFromSnoc(disk, roots, p, ds[1..], d);
    }
  }

  lemma ScannedNothing(files: map<Path, Bytes>, pending: seq<Path>)
    ensures Scanned([], files, pending, pending)
  {
  }

  lemma ScannedOne(es: seq<Edge>, files: map<Path, Bytes>, pending: seq<Path>, pending': seq<Path>, e: Edge)
    requires Scanned(es, files, pending, pending')
    ensures Scanned(es + [e], files, pending, if e.dependency in files then pending' else pending' + [e.dependency])
  {
    assert e in es + [e] && forall x | x in es :: x in es + [e];
  }

  lemma CountsAfterScan(disk: Disk, roots: seq<Path>, path: Path, files: map<Path, Bytes>, files': map<Path, Bytes>,
                        edges: seq<Edge>, edges': seq<Edge>)
    requires path !in files && files'.Keys == files.Keys + {path}
    requires edges' == edges + EdgesOf(disk, roots, path)
    requires EdgesCounted(disk, roots, files, edges)
    ensures EdgesCounted(disk, roots, files', edges')
  {
    forall e
      ensures multiset(edges')[e] == if e.parent in files' then multiset(EdgesOf(disk, roots, e.parent))[e] else 0
    {
      assert e in multiset(EdgesOf(disk, roots, path)) <==> e in EdgesOf(disk, roots, path);
    }
  }

  // ---- Order does not matter -------------------------------------------------------------------

  // Two traversals of one disk, in whatever order, agree on the files, their digests and how often
  // each edge occurs; their insertion orders are permutations of each other.
  lemma ClosureIsUnique(disk: Disk, roots: seq<Path>, root: Path, c: Closure, d: Closure)
    requires IsClosure(disk, roots, root, c) && IsClosure(disk, roots, root, d)
    ensures c.files == d.files
    ensures multiset(c.edges) == multiset(d.edges)
    ensures multiset(c.order) == multiset(d.order)
  {
    assert c.files.Keys == d.files.Keys;
    forall p ensures multiset(c.order)[p] == multiset(d.order)[p] {
      DistinctCount(c.order, p);
      DistinctCount(d.order, p);
    }
  }

  lemma {:induction false} DistinctCount<T>(s: seq<T>, x: T)
    requires Distinct(s)
    ensures multiset(s)[x] == if x in s then 1 else 0
  {
    if s != [] {
      assert s == [s[0]] + s[1..];
      assert Distinct(s[1..]);
      DistinctCount(s[1..], x);
    }
  }
}
