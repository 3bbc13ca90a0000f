/** The pre-image of a compile-cache key: a tagged, length-prefixed byte stream over the metadata
    and the include closure of every compilation unit, and what can be read back out of it. */
module CacheKey {
  import opened Prelude
  import opened IncludeClosure
  import opened LittleEndian
  import opened RecordOrder
  import opened Sorting

  // ---- Byte-level pieces -----------------------------------------------------------------------

  const TAG_UNIT: Bytes := [117, 110, 105, 116]
  const TAG_DIR: Bytes := [105, 110, 99, 108, 117, 100, 101, 45, 100, 105, 114]
  const TAG_FILE: Bytes := [102, 105, 108, 101]
  const TAG_EDGE: Bytes := [101, 100, 103, 101]
  const DIGEST_BYTES: nat := 32

  const LENGTH_LIMIT: nat := Pow256(8)       // what an 8-byte length can hold
  const SOURCE_LIMIT: nat := Pow256(7)       // 2^56

  // Eight bytes of length, then the bytes.
  function Prefixed(b: Bytes): (r: Bytes)
    ensures |r| == 8 + |b|
  {
    Little(|b|, 8) + b
  }

  lemma CutEqual(a: Bytes, r: Bytes, b: Bytes, s: Bytes)
    requires a + r == b + s && |a| == |b|
    ensures a == b && r == s
  {
    assert (a + r)[..|a|] == a && (b + s)[..|a|] == b;
    assert (a + r)[|a|..] == r && (b + s)[|a|..] == s;
  }

  lemma PrefixedInjective(a: Bytes, r: Bytes, b: Bytes, s: Bytes)
    requires |a| < LENGTH_LIMIT && |b| < LENGTH_LIMIT
    requires Prefixed(a) + r == Prefixed(b) + s
    ensures a == b && r == s
  {
    hide Little, Pow256;
    Assoc(Little(|a|, 8), a, r);
    Assoc(Little(|b|, 8), b, s);
    CutEqual(Little(|a|, 8), a + r, Little(|b|, 8), b + s);
    LittleInjective(|a|, |b|, 8);
    CutEqual(a, r, b, s);
  }

  // ---- Records ---------------------------------------------------------------------------------

  // A file record: path and digest. An edge record: including path and digest, the spelled name,
  // included path and digest.
  datatype FileRecord = FileRecord(path: Bytes, digest: Bytes)
  datatype EdgeRecord = EdgeRecord(parent: Bytes, parentDigest: Bytes, name: Bytes, dependency: Bytes, dependencyDigest: Bytes)

  predicate FileOk(f: FileRecord) { |f.path| < LENGTH_LIMIT && |f.digest| == DIGEST_BYTES }

  predicate EdgeOk(e: EdgeRecord) {
    && |e.parent| < LENGTH_LIMIT && |e.name| < LENGTH_LIMIT && |e.dependency| < LENGTH_LIMIT
    && |e.parentDigest| == DIGEST_BYTES && |e.dependencyDigest| == DIGEST_BYTES
  }

  // What is hashed for one unit, records already sorted.
  datatype UnitKey = UnitKey(dirs: seq<Bytes>, source: Bytes, sourceDigest: Bytes,
                             files: seq<FileRecord>, edges: seq<EdgeRecord>)

  predicate UnitOk(u: UnitKey) {
    && (forall d | d in u.dirs :: DirOk(d))
    && |u.source| < SOURCE_LIMIT && |u.sourceDigest| == DIGEST_BYTES
    && (forall f | f in u.files :: FileOk(f))
    && (forall e | e in u.edges :: EdgeOk(e))
  }

  // A list is its items one after the other, each behind the tag.
  function EncodeList<T>(tag: Bytes, item: T -> Bytes, xs: seq<T>): Bytes {
    if xs == [] then [] else tag + (item(xs[0]) + EncodeList(tag, item, xs[1..]))
  }

  function EncodeFile(f: FileRecord): Bytes { Prefixed(f.path) + f.digest }

  function EncodeTarget(e: EdgeRecord): Bytes { Prefixed(e.name) + (Prefixed(e.dependency) + e.dependencyDigest) }

  function EncodeEdge(e: EdgeRecord): Bytes { Prefixed(e.parent) + (e.parentDigest + EncodeTarget(e)) }

  function EncodeRecords(u: UnitKey): Bytes {
    EncodeList(TAG_FILE, EncodeFile, u.files) + EncodeList(TAG_EDGE, EncodeEdge, u.edges)
  }

  function EncodeUnit(u: UnitKey): Bytes {
    EncodeList(TAG_DIR, Prefixed, u.dirs) + (Prefixed(u.source) + (u.sourceDigest + EncodeRecords(u)))
  }

  // The whole stream; the ABI token is present only in callable keys.
  function Encode(abi: Option<Bytes>, metadata: Bytes, us: seq<UnitKey>): Bytes {
    (if abi.Some? then Prefixed(abi.value) else []) + Prefixed(metadata) + EncodeList(TAG_UNIT, EncodeUnit, us)
  }

  // ---- Reading it back -------------------------------------------------------------------------

  predicate Starts(s: Bytes, tag: Bytes) { tag <= s }

  lemma Assoc(a: Bytes, b: Bytes, c: Bytes)
    ensures (a + b) + c == a + (b + c)
  {
  }

  // An item ends where it says it does, when what follows it is as `follow` says.
  ghost predicate SelfDelimiting<T(!new)>(item: T -> Bytes, ok: T -> bool, follow: Bytes -> bool) {
    forall x, r, y, s ::
      ok(x) && ok(y) && follow(r) && follow(s) && item(x) + r == item(y) + s ==> x == y && r == s
  }

  predicate Anything(r: Bytes) { true }

  lemma ListStarts<T>(tag: Bytes, item: T -> Bytes, xs: seq<T>, r: Bytes)
    requires xs != []
    ensures Starts(EncodeList(tag, item, xs) + r, tag)
  {
    Assoc(tag, item(xs[0]) + EncodeList(tag, item, xs[1..]), r);
  }

  lemma ListUnfold<T>(tag: Bytes, item: T -> Bytes, xs: seq<T>, r: Bytes)
    requires xs != []
    ensures EncodeList(tag, item, xs) + r == tag + (item(xs[0]) + (EncodeList(tag, item, xs[1..]) + r))
  {
    var rest := EncodeList(tag, item, xs[1..]);
    Assoc(tag, item(xs[0]) + rest, r);
    Assoc(item(xs[0]), rest, r);
  }

  lemma RestFollows<T>(tag: Bytes, item: T -> Bytes, follow: Bytes -> bool, xs: seq<T>, r: Bytes)
    requires follow(r) && forall z | Starts(z, tag) :: follow(z)
    ensures follow(EncodeList(tag, item, xs) + r)
  {
    if xs == [] { assert [] + r == r; } else { ListStarts(tag, item, xs, r); }
  }

  // A list of self-delimiting items can be read off the front of a stream, provided what follows it
  // does not start with its tag.
  lemma {:induction false} ListInjective<T(!new)>(tag: Bytes, item: T -> Bytes, ok: T -> bool,
                                                  follow: Bytes -> bool,
                                                  xs: seq<T>, r: Bytes, ys: seq<T>, s: Bytes)
    requires SelfDelimiting(item, ok, follow)
    requires follow(r) && follow(s) && forall z | Starts(z, tag) :: follow(z)
    requires (forall x | x in xs :: ok(x)) && (forall y | y in ys :: ok(y))
    requires EncodeList(tag, item, xs) + r == EncodeList(tag, item, ys) + s
    requires !Starts(r, tag) && !Starts(s, tag)
    ensures xs == ys && r == s
    decreases |xs|
  {
    if xs == [] && ys == [] {
      assert [] + r == r && [] + s == s;
    } else if xs == [] {
      assert [] + r == r;
      ListStarts(tag, item, ys, s);
    } else if ys == [] {
      assert [] + s == s;
      ListStarts(tag, item, xs, r);
    } else {
      ListUnfold(tag, item, xs, r);
      ListUnfold(tag, item, ys, s);
      var x, y := EncodeList(tag, item, xs[1..]) + r, EncodeList(tag, item, ys[1..]) + s;
      CutEqual(tag, item(xs[0]) + x, tag, item(ys[0]) + y);
      RestFollows(tag, item, follow, xs[1..], r);
      RestFollows(tag, item, follow, ys[1..], s);
      ListInjective(tag, item, ok, follow, xs[1..], r, ys[1..], s);
      assert xs == [xs[0]] + xs[1..] && ys == [ys[0]] + ys[1..];
    }
  }

  predicate DirOk(d: Bytes) { |d| < LENGTH_LIMIT }

  lemma DirsDelimit()
    ensures SelfDelimiting(Prefixed, DirOk, Anything)
  {
    forall x: Bytes, r, y: Bytes, s | DirOk(x) && DirOk(y) && Prefixed(x) + r == Prefixed(y) + s
      ensures x == y && r == s
    {
      PrefixedInjective(x, r, y, s);
    }
  }

  lemma FilesDelimit()
    ensures SelfDelimiting(EncodeFile, FileOk, Anything)
  {
    forall f, r, g, s | FileOk(f) && FileOk(g) && EncodeFile(f) + r == EncodeFile(g) + s
      ensures f == g && r == s
    {
      Assoc(Prefixed(f.path), f.digest, r);
      Assoc(Prefixed(g.path), g.digest, s);
      PrefixedInjective(f.path, f.digest + r, g.path, g.digest + s);
      CutEqual(f.digest, r, g.digest, s);
    }
  }

  lemma TargetInjective(e: EdgeRecord, r: Bytes, f: EdgeRecord, s: Bytes)
    requires EdgeOk(e) && EdgeOk(f) && EncodeTarget(e) + r == EncodeTarget(f) + s
    ensures e.name == f.name && e.dependency == f.dependency && e.dependencyDigest == f.dependencyDigest && r == s
  {
    Assoc(Prefixed(e.name), Prefixed(e.dependency) + e.dependencyDigest, r);
    Assoc(Prefixed(f.name), Prefixed(f.dependency) + f.dependencyDigest, s);
    var x, y := (Prefixed(e.dependency) + e.dependencyDigest) + r, (Prefixed(f.dependency) + f.dependencyDigest) + s;
    PrefixedInjective(e.name, x, f.name, y);
    Assoc(Prefixed(e.dependency), e.dependencyDigest, r);
    Assoc(Prefixed(f.dependency), f.dependencyDigest, s);
    PrefixedInjective(e.dependency, e.dependencyDigest + r, f.dependency, f.dependencyDigest + s);
    CutEqual(e.dependencyDigest, r, f.dependencyDigest, s);
  }

  lemma EdgesDelimit()
    ensures SelfDelimiting(EncodeEdge, EdgeOk, Anything)
  {
    forall e, r, f, s | EdgeOk(e) && EdgeOk(f) && EncodeEdge(e) + r == EncodeEdge(f) + s
      ensures e == f && r == s
    {
      Assoc(Prefixed(e.parent), e.parentDigest + EncodeTarget(e), r);
      Assoc(Prefixed(f.parent), f.parentDigest + EncodeTarget(f), s);
      PrefixedInjective(e.parent, (e.parentDigest + EncodeTarget(e)) + r, f.parent, (f.parentDigest + EncodeTarget(f)) + s);
      Assoc(e.parentDigest, EncodeTarget(e), r);
      Assoc(f.parentDigest, EncodeTarget(f), s);
      CutEqual(e.parentDigest, EncodeTarget(e) + r, f.parentDigest, EncodeTarget(f) + s);
      TargetInjective(e, r, f, s);
    }
  }

  // A short source length cannot be mistaken for the include-dir tag: their eighth bytes differ.
  lemma SourceIsNotDir(source: Bytes, r: Bytes)
    requires |source| < SOURCE_LIMIT
    ensures !Starts(Prefixed(source) + r, TAG_DIR)
  {
    LittleTopByte(|source|, 8);
    assert (Prefixed(source) + r)[7] == 0 && TAG_DIR[7] == 45;
  }

  // What can follow the records of a unit: another unit, or the end.
  predicate UnitsFollow(r: Bytes) { r == [] || Starts(r, TAG_UNIT) }

  lemma TagsDiffer(z: Bytes)
    ensures Starts(z, TAG_EDGE) || UnitsFollow(z) ==> !Starts(z, TAG_FILE)
    ensures UnitsFollow(z) ==> !Starts(z, TAG_EDGE)
  {
    if Starts(z, TAG_EDGE) { assert z[0] == TAG_EDGE[0] == 101; }
    if Starts(z, TAG_UNIT) { assert z[0] == TAG_UNIT[0] == 117; }
    if Starts(z, TAG_FILE) { assert z[0] == TAG_FILE[0] == 102; }
  }

  lemma RecordsInjective(u: UnitKey, r: Bytes, v: UnitKey, s: Bytes)
    requires UnitOk(u) && UnitOk(v) && UnitsFollow(r) && UnitsFollow(s)
    requires EncodeRecords(u) + r == EncodeRecords(v) + s
    ensures u.files == v.files && u.edges == v.edges && r == s
  {
    hide EncodeList, Starts, EncodeFile, EncodeEdge, SelfDelimiting, UnitsFollow;
    var x, y := EncodeList(TAG_EDGE, EncodeEdge, u.edges) + r, EncodeList(TAG_EDGE, EncodeEdge, v.edges) + s;
    Assoc(EncodeList(TAG_FILE, EncodeFile, u.files), EncodeList(TAG_EDGE, EncodeEdge, u.edges), r);
    Assoc(EncodeList(TAG_FILE, EncodeFile, v.files), EncodeList(TAG_EDGE, EncodeEdge, v.edges), s);
    NoFileAfter(u.edges, r);
    NoFileAfter(v.edges, s);
    FilesDelimit();
    ListInjective(TAG_FILE, EncodeFile, FileOk, Anything, u.files, x, v.files, y);
    TagsDiffer(r);
    TagsDiffer(s);
    EdgesDelimit();
    ListInjective(TAG_EDGE, EncodeEdge, EdgeOk, Anything, u.edges, r, v.edges, s);
  }

  lemma NoFileAfter(es: seq<EdgeRecord>, r: Bytes)
    requires UnitsFollow(r)
    ensures !Starts(EncodeList(TAG_EDGE, EncodeEdge, es) + r, TAG_FILE)
  {
    var z := EncodeList(TAG_EDGE, EncodeEdge, es) + r;
    if es == [] { assert z == r; } else { ListStarts(TAG_EDGE, EncodeEdge, es, r); }
    TagsDiffer(z);
  }

  lemma UnitInjective(u: UnitKey, r: Bytes, v: UnitKey, s: Bytes)
    requires UnitOk(u) && UnitOk(v) && UnitsFollow(r) && UnitsFollow(s)
    requires EncodeUnit(u) + r == EncodeUnit(v) + s
    ensures u == v && r == s
  {
    hide EncodeList, Starts, Prefixed, SelfDelimiting, UnitsFollow, EncodeRecords;
    var a, b := u.sourceDigest + EncodeRecords(u), v.sourceDigest + EncodeRecords(v);
    Assoc(EncodeList(TAG_DIR, Prefixed, u.dirs), Prefixed(u.source) + a, r);
    Assoc(EncodeList(TAG_DIR, Prefixed, v.dirs), Prefixed(v.source) + b, s);
    Assoc(Prefixed(u.source), a, r);
    Assoc(Prefixed(v.source), b, s);
    SourceIsNotDir(u.source, a + r);
    SourceIsNotDir(v.source, b + s);
    DirsDelimit();
    ListInjective(TAG_DIR, Prefixed, DirOk, Anything, u.dirs, Prefixed(u.source) + (a + r), v.dirs, Prefixed(v.source) + (b + s));
    SourceLimitIsSmaller();
    PrefixedInjective(u.source, a + r, v.source, b + s);
    Assoc(u.sourceDigest, EncodeRecords(u), r);
    Assoc(v.sourceDigest, EncodeRecords(v), s);
    CutEqual(u.sourceDigest, EncodeRecords(u) + r, v.sourceDigest, EncodeRecords(v) + s);
    RecordsInjective(u, r, v, s);
  }

  lemma SourceLimitIsSmaller()
    ensures SOURCE_LIMIT < LENGTH_LIMIT
  {
  }

  lemma UnitsDelimit()
    ensures SelfDelimiting(EncodeUnit, UnitOk, UnitsFollow)
  {
    forall u, r, v, s | UnitOk(u) && UnitOk(v) && UnitsFollow(r) && UnitsFollow(s) && EncodeUnit(u) + r == EncodeUnit(v) + s
      ensures u == v && r == s
    {
      UnitInjective(u, r, v, s);
    }
  }

  predicate TokenOk(abi: Option<Bytes>, metadata: Bytes) {
    |metadata| < LENGTH_LIMIT && (abi.Some? ==> |abi.value| < LENGTH_LIMIT)
  }

  // With the ABI token present in both or in neither, one stream has one reading: the same token,
  // the same metadata and the same ordered units, each with the same ordered include directories,
  // source, file records and edge records.
  lemma StreamInjective(abi: Option<Bytes>, metadata: Bytes, us: seq<UnitKey>,
                        abi': Option<Bytes>, metadata': Bytes, us': seq<UnitKey>)
    requires abi.Some? == abi'.Some? && TokenOk(abi, metadata) && TokenOk(abi', metadata')
    requires (forall u | u in us :: UnitOk(u)) && (forall u | u in us' :: UnitOk(u))
    requires Encode(abi, metadata, us) == Encode(abi', metadata', us')
    ensures abi == abi' && metadata == metadata' && us == us'
  {
    hide EncodeList, Starts, Prefixed, SelfDelimiting;
    var x, y := EncodeList(TAG_UNIT, EncodeUnit, us), EncodeList(TAG_UNIT, EncodeUnit, us');
    if abi.Some? {
      Assoc(Prefixed(abi.value), Prefixed(metadata), x);
      Assoc(Prefixed(abi'.value), Prefixed(metadata'), y);
      PrefixedInjective(abi.value, Prefixed(metadata) + x, abi'.value, Prefixed(metadata') + y);
    } else {
      assert [] + Prefixed(metadata) == Prefixed(metadata) && [] + Prefixed(metadata') == Prefixed(metadata');
    }
    PrefixedInjective(metadata, x, metadata', y);
    assert x + [] == x && y + [] == y;
    UnitsDelimit();
    EndIsNoUnit();
    ListInjective(TAG_UNIT, EncodeUnit, UnitOk, UnitsFollow, us, [], us', []);
  }

  lemma EndIsNoUnit()
    ensures !Starts([], TAG_UNIT) && UnitsFollow([])
    ensures forall z | Starts(z, TAG_UNIT) :: UnitsFollow(z)
  {
  }

  const UNIT_AS_LENGTH: nat := 0x74696e75  // the tag "unit" read as a little-endian number
  const OPEN_BRACE: Byte := 123

  // The encoded metadata: JSON text of a mapping, in which a NUL character is always escaped.
  predicate MappingText(metadata: Bytes) {
    |metadata| > 0 && metadata[0] == OPEN_BRACE && forall b | b in metadata :: b != 0
  }

  // A length-prefixed mapping is never mistaken for a unit. Its length would have to spell "unit";
  // then its first byte meets the include-dir tag or its fourth the clear top byte of a source length.
  lemma MappingIsNoUnit(metadata: Bytes, x: Bytes, u: UnitKey, r: Bytes)
    requires MappingText(metadata) && UnitOk(u)
    ensures Prefixed(metadata) + x != TAG_UNIT + (EncodeUnit(u) + r)
  {
    hide EncodeList, EncodeRecords, Little, SOURCE_LIMIT;
    var l, z := Prefixed(metadata) + x, TAG_UNIT + (EncodeUnit(u) + r);
    if |metadata| < UNIT_AS_LENGTH {
      LengthIsNotUnit(|metadata|);
      assert l[..4] == Little(|metadata|, 8)[..4] && z[..4] == TAG_UNIT;
    } else {
      assert metadata[3] in metadata;
      assert l[8] == metadata[0] && l[11] == metadata[3];
      UnitBytes(u, r);
      assert |l| >= 12 && |z| >= 12 && z[8] == (EncodeUnit(u) + r)[4] && z[11] == (EncodeUnit(u) + r)[7];
    }
  }

  // The fifth byte of a unit is that of the include-dir tag, or its eighth byte is clear.
  lemma UnitBytes(u: UnitKey, r: Bytes)
    requires UnitOk(u)
    ensures |EncodeUnit(u) + r| >= 8
    ensures (EncodeUnit(u) + r)[4] == TAG_DIR[4] || (EncodeUnit(u) + r)[7] == 0
  {
    hide EncodeRecords, Little;
    var rest := Prefixed(u.source) + (u.sourceDigest + EncodeRecords(u));
    var z := EncodeUnit(u) + r;
    if u.dirs == [] {
      LittleTopByte(|u.source|, 8);
      assert z == rest + r && z[7] == Prefixed(u.source)[7];
    } else {
      Assoc(EncodeList(TAG_DIR, Prefixed, u.dirs), rest, r);
      ListStarts(TAG_DIR, Prefixed, u.dirs, rest + r);
      assert z[4] == TAG_DIR[4];
    }
  }

  // The presence of the token is not tagged. The stream still decides it: what follows the first
  // length-prefixed string is a mapping in one case and a unit or the end in the other.
  lemma PresenceIsDecided(token: Bytes, metadata: Bytes, us: seq<UnitKey>, metadata': Bytes, us': seq<UnitKey>)
    requires TokenOk(Some(token), metadata) && TokenOk(None, metadata') && MappingText(metadata)
    requires forall u | u in us' :: UnitOk(u)
    ensures Encode(Some(token), metadata, us) != Encode(None, metadata', us')
  {
    hide EncodeUnit, Prefixed, MappingText, UnitOk;
    var x, y := EncodeList(TAG_UNIT, EncodeUnit, us), EncodeList(TAG_UNIT, EncodeUnit, us');
    Assoc(Prefixed(token), Prefixed(metadata), x);
    assert [] + Prefixed(metadata') == Prefixed(metadata');
    MappingIsNoList(metadata, x, us');
    if Prefixed(token) + (Prefixed(metadata) + x) == Prefixed(metadata') + y {
      PrefixedInjective(token, Prefixed(metadata) + x, metadata', y);
    }
  }

  lemma MappingIsNoList(metadata: Bytes, x: Bytes, us: seq<UnitKey>)
    requires MappingText(metadata) && forall u | u in us :: UnitOk(u)
    ensures Prefixed(metadata) + x != EncodeList(TAG_UNIT, EncodeUnit, us)
  {
    hide EncodeUnit, Prefixed, MappingText, UnitOk;
    if us == [] {
      assert |Prefixed(metadata) + x| >= 8;
    } else {
      assert us[0] in us;
      MappingIsNoUnit(metadata, x, us[0], EncodeList(TAG_UNIT, EncodeUnit, us[1..]));
    }
  }

  lemma LengthIsNotUnit(n: nat)
    requires n < UNIT_AS_LENGTH
    ensures Little(n, 8)[..4] != TAG_UNIT
  {
    hide Little;
    var l := Little(n, 8);
    FourBytes(n);
    NotUnitBytes(n);
    assert l[..4][0] == l[0] && l[..4][1] == l[1] && l[..4][2] == l[2] && l[..4][3] == l[3];
  }

  lemma NotUnitBytes(n: nat)
    requires n < UNIT_AS_LENGTH
    ensures n % 256 != 117 || n / 256 % 256 != 110 || n / 256 / 256 % 256 != 105 || n / 256 / 256 / 256 % 256 != 116
  {
  }

  lemma FourBytes(n: nat)
    ensures Little(n, 8)[0] == n % 256 && Little(n, 8)[1] == n / 256 % 256
    ensures Little(n, 8)[2] == n / 256 / 256 % 256 && Little(n, 8)[3] == n / 256 / 256 / 256 % 256
  {
    var a, b, c := n / 256, n / 256 / 256, n / 256 / 256 / 256;
    assert Little(n, 8) == [n % 256] + Little(a, 7);
    assert Little(a, 7) == [a % 256] + Little(b, 6);
    assert Little(b, 6) == [b % 256] + Little(c, 5);
    assert Little(c, 5) == [c % 256] + Little(c / 256, 4);
  }

  // ---- From a closure to its records -----------------------------------------------------------

  // How paths are spelled for the compiler (relative to the checkout, then file-system encoded) and
  // how include names are encoded.
  datatype Spelling = Spelling(path: Path -> Bytes, text: string -> Bytes)

  function FileTuple(f: FileRecord): seq<Bytes> { [f.path, f.digest] }

  function EdgeTuple(e: EdgeRecord): seq<Bytes> {
    [e.parent, e.parentDigest, e.name, e.dependency, e.dependencyDigest]
  }

  predicate FileLe(f: FileRecord, g: FileRecord) { TupleLe(FileTuple(f), FileTuple(g)) }

  predicate EdgeLe(e: EdgeRecord, f: EdgeRecord) { TupleLe(EdgeTuple(e), EdgeTuple(f)) }

  lemma FilesOrdered()
    ensures TotalPreorder(FileLe) && Antisymmetric(FileLe)
  {
    forall f, g ensures (FileLe(f, g) || FileLe(g, f)) && (FileLe(f, g) && FileLe(g, f) ==> f == g) {
      TupleTotal(FileTuple(f), FileTuple(g));
      assert FileTuple(f) == FileTuple(g) ==> FileTuple(f)[0] == FileTuple(g)[0] && FileTuple(f)[1] == FileTuple(g)[1];
    }
    forall f, g, h | FileLe(f, g) && FileLe(g, h) ensures FileLe(f, h) {
      TupleTransitive(FileTuple(f), FileTuple(g), FileTuple(h));
    }
  }

  lemma EdgeTupleInjective(e: EdgeRecord, f: EdgeRecord)
    requires EdgeTuple(e) == EdgeTuple(f)
    ensures e == f
  {
    var a, b := EdgeTuple(e), EdgeTuple(f);
    assert a[0] == b[0] && a[1] == b[1] && a[2] == b[2] && a[3] == b[3] && a[4] == b[4];
  }

  lemma EdgesOrdered()
    ensures TotalPreorder(EdgeLe) && Antisymmetric(EdgeLe)
  {
    forall e, f ensures (EdgeLe(e, f) || EdgeLe(f, e)) && (EdgeLe(e, f) && EdgeLe(f, e) ==> e == f) {
      TupleTotal(EdgeTuple(e), EdgeTuple(f));
      if EdgeTuple(e) == EdgeTuple(f) { EdgeTupleInjective(e, f); }
    }
    forall e, f, g | EdgeLe(e, f) && EdgeLe(f, g) ensures EdgeLe(e, g) {
      TupleTransitive(EdgeTuple(e), EdgeTuple(f), EdgeTuple(g));
    }
  }

  function Digest(files: map<Path, Bytes>, p: Path): Bytes { if p in files then files[p] else [] }

  function FileRecordOf(sp: Spelling, files: map<Path, Bytes>, p: Path): FileRecord {
    FileRecord(sp.path(p), Digest(files, p))
  }

  function EdgeRecordOf(sp: Spelling, files: map<Path, Bytes>, e: Edge): EdgeRecord {
    EdgeRecord(sp.path(e.parent), Digest(files, e.parent), sp.text(e.name), sp.path(e.dependency), Digest(files, e.dependency))
  }

  function Map<A, B>(f: A -> B, s: seq<A>): (r: seq<B>)
    ensures |r| == |s|
  {
    if s == [] then [] else [f(s[0])] + Map(f, s[1..])
  }

  lemma {:induction false} MapAt<A, B>(f: A -> B, s: seq<A>, i: nat)
    requires i < |s|
    ensures Map(f, s)[i] == f(s[i])
  {
    if i > 0 { MapAt(f, s[1..], i - 1); }
  }

  lemma {:induction false} MapAppend<A, B>(f: A -> B, a: seq<A>, b: seq<A>)
    ensures Map(f, a + b) == Map(f, a) + Map(f, b)
  {
    if a == [] {
      assert a + b == b;
    } else {
      assert (a + b)[1..] == a[1..] + b;
      MapAppend(f, a[1..], b);
    }
  }

  function FileRecords(sp: Spelling, c: Closure): seq<FileRecord> {
    Map(p => FileRecordOf(sp, c.files, p), c.order)
  }

  function EdgeRecords(sp: Spelling, c: Closure): seq<EdgeRecord> {
    Map(e => EdgeRecordOf(sp, c.files, e), c.edges)
  }

  function UnitKeyOf(sp: Spelling, includeDirs: seq<Path>, c: Closure): UnitKey {
    UnitKey(Map(sp.path, includeDirs), sp.path(c.root), Digest(c.files, c.root),
            Sort(FileLe, FileRecords(sp, c)), Sort(EdgeLe, EdgeRecords(sp, c)))
  }

  // ---- The key and the closure determine each other --------------------------------------------

  lemma {:induction false} MapPermutes<A, B>(f: A -> B, a: seq<A>, b: seq<A>)
    requires multiset(a) == multiset(b)
    ensures multiset(Map(f, a)) == multiset(Map(f, b))
    decreases |a|
  {
    SameLength(a, b);
    if a != [] {
      assert a[0] in multiset(b);
      var i :| 0 <= i < |b| && b[i] == a[0];
      var rest := b[..i] + b[i + 1..];
      RemoveAt(b, i);
      TailMultiset(a);
      MapPermutes(f, a[1..], rest);
      MapRemoveAt(f, b, i);
      assert multiset(Map(f, a)) == multiset{f(a[0])} + multiset(Map(f, a[1..]));
    }
  }

  lemma RemoveAt<A>(b: seq<A>, i: nat)
    requires i < |b|
    ensures multiset(b[..i] + b[i + 1..]) == multiset(b) - multiset{b[i]}
  {
    assert b == b[..i] + ([b[i]] + b[i + 1..]);
  }

  lemma MapCons<A, B>(f: A -> B, x: A, y: seq<A>)
    ensures Map(f, [x] + y) == [f(x)] + Map(f, y)
  {
    assert ([x] + y)[1..] == y;
  }

  lemma MiddleMultiset<A>(x: seq<A>, v: A, y: seq<A>)
    ensures multiset(x + ([v] + y)) == multiset(x + y) + multiset{v}
  {
  }

  lemma MapMiddle<A, B>(f: A -> B, x: seq<A>, v: A, y: seq<A>)
    ensures multiset(Map(f, x + ([v] + y))) == multiset(Map(f, x + y)) + multiset{f(v)}
  {
    hide Map;
    MapAppend(f, x, [v] + y);
    MapCons(f, v, y);
    MapAppend(f, x, y);
    MiddleMultiset(Map(f, x), f(v), Map(f, y));
  }

  lemma CutAt<A>(b: seq<A>, i: nat)
    requires i < |b|
    ensures b == b[..i] + ([b[i]] + b[i + 1..])
  {
  }

  lemma MapRemoveAt<A, B>(f: A -> B, b: seq<A>, i: nat)
    requires i < |b|
    ensures multiset(Map(f, b)) == multiset(Map(f, b[..i] + b[i + 1..])) + multiset{f(b[i])}
  {
    hide Map;
    CutAt(b, i);
    MapMiddle(f, b[..i], b[i], b[i + 1..]);
  }

  lemma RecordSortsForget(fs: seq<FileRecord>, gs: seq<FileRecord>, es: seq<EdgeRecord>, hs: seq<EdgeRecord>)
    ensures Sort(FileLe, fs) == Sort(FileLe, gs) <==> multiset(fs) == multiset(gs)
    ensures Sort(EdgeLe, es) == Sort(EdgeLe, hs) <==> multiset(es) == multiset(hs)
  {
    hide FileLe, EdgeLe, TotalPreorder, Antisymmetric;
    FilesOrdered();
    EdgesOrdered();
    SortForgetsOnlyOrder(FileLe, fs, gs);
    SortForgetsOnlyOrder(EdgeLe, es, hs);
  }

  ghost predicate Faithful(sp: Spelling) {
    && (forall p, q | sp.path(p) == sp.path(q) :: p == q)
    && (forall x, y | sp.text(x) == sp.text(y) :: x == y)
  }

  lemma {:induction false} MapCount<A, B>(f: A -> B, s: seq<A>, x: A)
    requires forall y | y in s && f(y) == f(x) :: y == x
    ensures multiset(Map(f, s))[f(x)] == multiset(s)[x]
  {
    if s != [] {
      assert s == [s[0]] + s[1..] && Map(f, s) == [f(s[0])] + Map(f, s[1..]);
      MapCount(f, s[1..], x);
    }
  }

  lemma FileRecordListed(sp: Spelling, c: Closure, p: Path)
    requires p in c.order
    ensures FileRecordOf(sp, c.files, p) in FileRecords(sp, c)
  {
    var i :| 0 <= i < |c.order| && c.order[i] == p;
    MapAt(q => FileRecordOf(sp, c.files, q), c.order, i);
  }

  lemma FileRecordComesFrom(sp: Spelling, c: Closure, r: FileRecord) returns (p: Path)
    requires r in FileRecords(sp, c)
    ensures p in c.order && r == FileRecordOf(sp, c.files, p)
  {
    var i :| 0 <= i < |c.order| && FileRecords(sp, c)[i] == r;
    MapAt(q => FileRecordOf(sp, c.files, q), c.order, i);
    p := c.order[i];
  }

  lemma SubsetOfFiles(sp: Spelling, c: Closure, d: Closure)
    requires Faithful(sp) && ListsKeys(c.order, c.files) && ListsKeys(d.order, d.files)
    requires multiset(FileRecords(sp, c)) == multiset(FileRecords(sp, d))
    ensures forall p | p in c.files :: p in d.files && d.files[p] == c.files[p]
  {
    hide FileRecords;
    forall p | p in c.files ensures p in d.files && d.files[p] == c.files[p] {
      FileRecordListed(sp, c, p);
      var r := FileRecordOf(sp, c.files, p);
      assert r in multiset(FileRecords(sp, d));
      var q := FileRecordComesFrom(sp, d, r);
      assert q == p && p in d.order;
    }
  }

  lemma EdgeRecordInjective(sp: Spelling, files: map<Path, Bytes>, e: Edge, f: Edge)
    requires Faithful(sp) && EdgeRecordOf(sp, files, e) == EdgeRecordOf(sp, files, f)
    ensures e == f
  {
  }

  lemma EdgesRecovered(sp: Spelling, c: Closure, d: Closure)
    requires Faithful(sp) && c.files == d.files
    requires multiset(EdgeRecords(sp, c)) == multiset(EdgeRecords(sp, d))
    ensures multiset(c.edges) == multiset(d.edges)
  {
    var record := (e: Edge) => EdgeRecordOf(sp, c.files, e);
    forall e ensures multiset(c.edges)[e] == multiset(d.edges)[e] {
      forall f | record(f) == record(e) ensures f == e { EdgeRecordInjective(sp, c.files, f, e); }
      MapCount(record, c.edges, e);
      MapCount(record, d.edges, e);
    }
  }

  lemma {:induction false} DirsRecovered(sp: Spelling, dirs: seq<Path>, dirs': seq<Path>)
    requires Faithful(sp) && Map(sp.path, dirs) == Map(sp.path, dirs')
    ensures dirs == dirs'
  {
    assert |dirs| == |Map(sp.path, dirs)| == |dirs'|;
    forall i | 0 <= i < |dirs| ensures dirs[i] == dirs'[i] {
      MapAt(sp.path, dirs, i);
      MapAt(sp.path, dirs', i);
    }
  }

  // One compilation unit: its include directories in order and the closure of its source.
  datatype Unit = Unit(dirs: seq<Path>, closure: Closure)

  // Same ordered include directories, same root, same files with the same digests, and the same
  // edges equally often.
  predicate SameUnit(u: Unit, v: Unit) {
    && u.dirs == v.dirs && u.closure.root == v.closure.root
    && u.closure.files == v.closure.files && multiset(u.closure.edges) == multiset(v.closure.edges)
  }

  ghost predicate Listed(u: Unit) { ListsKeys(u.closure.order, u.closure.files) }

  function KeyOf(sp: Spelling, u: Unit): UnitKey { UnitKeyOf(sp, u.dirs, u.closure) }

  lemma KeyDeterminesUnit(sp: Spelling, u: Unit, v: Unit)
    requires Faithful(sp) && Listed(u) && Listed(v) && KeyOf(sp, u) == KeyOf(sp, v)
    ensures SameUnit(u, v)
  {
    var c, d := u.closure, v.closure;
    hide Sort, FileRecords, EdgeRecords, Map, FileLe, EdgeLe, ListsKeys, Digest;
    assert c.root == d.root;
    DirsRecovered(sp, u.dirs, v.dirs);
    RecordSortsForget(FileRecords(sp, c), FileRecords(sp, d), EdgeRecords(sp, c), EdgeRecords(sp, d));
    SubsetOfFiles(sp, c, d);
    SubsetOfFiles(sp, d, c);
    assert c.files.Keys == d.files.Keys;
    EdgesRecovered(sp, c, d);
  }

  lemma UnitDeterminesKey(sp: Spelling, u: Unit, v: Unit)
    requires Listed(u) && Listed(v) && SameUnit(u, v)
    ensures KeyOf(sp, u) == KeyOf(sp, v)
  {
    var c, d := u.closure, v.closure;
    SameKeysSameListing(c.order, d.order, c.files);
    MapPermutes(p => FileRecordOf(sp, c.files, p), c.order, d.order);
    MapPermutes(e => EdgeRecordOf(sp, c.files, e), c.edges, d.edges);
    RecordSortsForget(FileRecords(sp, c), FileRecords(sp, d), EdgeRecords(sp, c), EdgeRecords(sp, d));
  }

  lemma SameKeysSameListing<K(!new), V>(a: seq<K>, b: seq<K>, m: map<K, V>)
    requires ListsKeys(a, m) && ListsKeys(b, m)
    ensures multiset(a) == multiset(b)
  {
    forall p ensures multiset(a)[p] == multiset(b)[p] {
      DistinctCount(a, p);
      DistinctCount(b, p);
    }
  }

  // Whatever order the worklist visited the files in, the unit contributes the same bytes.
  lemma KeyIgnoresTraversal(disk: Disk, roots: seq<Path>, root: Path, c: Closure, d: Closure, sp: Spelling, dirs: seq<Path>)
    requires IsClosure(disk, roots, root, c) && IsClosure(disk, roots, root, d)
    ensures KeyOf(sp, Unit(dirs, c)) == KeyOf(sp, Unit(dirs, d))
  {
    ClosureIsUnique(disk, roots, root, c, d);
    UnitDeterminesKey(sp, Unit(dirs, c), Unit(dirs, d));
  }

  // ---- What one key stands for -----------------------------------------------------------------

  function KeysOf(sp: Spelling, us: seq<Unit>): seq<UnitKey> {
    seq(|us|, i requires 0 <= i < |us| => KeyOf(sp, us[i]))
  }

  // All lengths fit their prefixes, source paths stay below 2^56 bytes, digests are 32 bytes.
  ghost predicate Encodable(sp: Spelling, abi: Option<Bytes>, metadata: Bytes, us: seq<Unit>) {
    TokenOk(abi, metadata) && forall u | u in us :: Listed(u) && UnitOk(KeyOf(sp, u))
  }

  // Two streams are equal exactly when they were built from the same token, the same metadata and
  // pairwise the same units, in order. A hash without collisions turns this into: two keys are equal
  // exactly when nothing that went into them differs.
  lemma StreamsEqualIff(sp: Spelling, abi: Option<Bytes>, metadata: Bytes, us: seq<Unit>,
                        abi': Option<Bytes>, metadata': Bytes, vs: seq<Unit>)
    requires Faithful(sp) && MappingText(metadata) && MappingText(metadata')
    requires Encodable(sp, abi, metadata, us) && Encodable(sp, abi', metadata', vs)
    ensures Encode(abi, metadata, KeysOf(sp, us)) == Encode(abi', metadata', KeysOf(sp, vs)) <==>
              abi == abi' && metadata == metadata' && |us| == |vs|
              && forall i | 0 <= i < |us| :: SameUnit(us[i], vs[i])
  {
    hide Faithful, Encode, KeyOf, SameUnit, UnitOk, Listed, MappingText;
    var ks, ls := KeysOf(sp, us), KeysOf(sp, vs);
    forall u | u in ks ensures UnitOk(u) { var i :| 0 <= i < |ks| && ks[i] == u; assert us[i] in us; }
    forall u | u in ls ensures UnitOk(u) { var i :| 0 <= i < |ls| && ls[i] == u; assert vs[i] in vs; }
    if abi.Some? && abi'.None? { PresenceIsDecided(abi.value, metadata, ks, metadata', ls); }
    if abi.None? && abi'.Some? { PresenceIsDecided(abi'.value, metadata', ls, metadata, ks); }
    if Encode(abi, metadata, ks) == Encode(abi', metadata', ls) {
      StreamInjective(abi, metadata, ks, abi', metadata', ls);
      forall i | 0 <= i < |us| ensures SameUnit(us[i], vs[i]) {
        assert ks[i] == ls[i] && us[i] in us && vs[i] in vs;
        KeyDeterminesUnit(sp, us[i], vs[i]);
      }
    } else if |us| == |vs| && forall i | 0 <= i < |us| :: SameUnit(us[i], vs[i]) {
      forall i | 0 <= i < |us| ensures ks[i] == ls[i] {
        assert us[i] in us && vs[i] in vs;
        UnitDeterminesKey(sp, us[i], vs[i]);
      }
      assert ks == ls;
    }
  }

  // ---- Building the stream ---------------------------------------------------------------------

  lemma {:induction false} ListSnoc<T>(tag: Bytes, item: T -> Bytes, xs: seq<T>, x: T)
    ensures EncodeList(tag, item, xs + [x]) == EncodeList(tag, item, xs) + (tag + item(x))
  {
    if xs == [] {
      assert xs + [x] == [x] && [x][1..] == [];
      assert tag + (item(x) + []) == [] + (tag + item(x));
    } else {
      assert (xs + [x])[0] == xs[0] && (xs + [x])[1..] == xs[1..] + [x];
      ListSnoc(tag, item, xs[1..], x);
      ListUnfold(tag, item, xs, tag + item(x));
    }
  }

  // One of the loops of digest updates: the tag and the fields of each record in turn.
  method UpdateAll<T>(stream: Bytes, tag: Bytes, item: T -> Bytes, xs: seq<T>) returns (out: Bytes)
    ensures out == stream + EncodeList(tag, item, xs)
  {
    out := stream;
    assert xs[..0] == [] && xs[..|xs|] == xs;
    for i := 0 to |xs|
      invariant out == stream + EncodeList(tag, item, xs[..i])
    {
      assert xs[..i + 1] == xs[..i] + [xs[i]];
      ListSnoc(tag, item, xs[..i], xs[i]);
      out := out + tag;
      out := out + item(xs[i]);
    }
  }

  ghost predicate IsUnitOf(disk: Disk, source: Path, dirs: seq<Path>, u: Unit) {
    u.dirs == dirs && IsClosure(disk, Roots(disk, dirs), source, u.closure)
  }

  method UpdateUnit(stream: Bytes, sp: Spelling, u: Unit) returns (out: Bytes)
    ensures out == stream + (TAG_UNIT + EncodeUnit(KeyOf(sp, u)))
  {
    var k := KeyOf(sp, u);
    hide KeyOf, EncodeList, Prefixed;
    out := stream + TAG_UNIT;
    out := UpdateAll(out, TAG_DIR, Prefixed, k.dirs);
    out := out + Prefixed(k.source);
    out := out + k.sourceDigest;
    out := UpdateAll(out, TAG_FILE, EncodeFile, k.files);
    out := UpdateAll(out, TAG_EDGE, EncodeEdge, k.edges);
    Regroup(stream, TAG_UNIT, EncodeList(TAG_DIR, Prefixed, k.dirs), Prefixed(k.source), k.sourceDigest,
            EncodeList(TAG_FILE, EncodeFile, k.files), EncodeList(TAG_EDGE, EncodeEdge, k.edges));
  }

  lemma Regroup(a: Bytes, b: Bytes, c: Bytes, d: Bytes, e: Bytes, f: Bytes, g: Bytes)
    ensures a + b + c + d + e + f + g == a + (b + (c + (d + (e + (f + g)))))
  {
  }

  // The whole key computation up to the hash: it fails exactly when some unit reaches a file that
  // cannot be read.
  method CompileSourceKey(disk: Disk, sp: Spelling, abi: Option<Bytes>, metadata: Bytes, sources: seq<(Path, seq<Path>)>)
    returns (stream: Option<Bytes>, ghost us: seq<Unit>)
    ensures stream.None? <==> exists i | 0 <= i < |sources| :: ReachesUnreadable(disk, Roots(disk, sources[i].1), sources[i].0)
    ensures stream.Some? ==>
              && |us| == |sources|
              && (forall i | 0 <= i < |sources| :: IsUnitOf(disk, sources[i].0, sources[i].1, us[i]))
              && stream.value == Encode(abi, metadata, KeysOf(sp, us))
  {
    hide IsClosure, KeyOf, EncodeUnit, EncodeList;
    var head := (if abi.Some? then Prefixed(abi.value) else []) + Prefixed(metadata);
    var out := head;
    us := [];
    assert KeysOf(sp, []) == [] && EncodeList(TAG_UNIT, EncodeUnit, []) == [] by { NoUnits(); }
    for i := 0 to |sources|
      invariant |us| == i
      invariant forall j | 0 <= j < i :: IsUnitOf(disk, sources[j].0, sources[j].1, us[j])
                    && !ReachesUnreadable(disk, Roots(disk, sources[j].1), sources[j].0)
      invariant out == head + EncodeList(TAG_UNIT, EncodeUnit, KeysOf(sp, us))
    {
      var closure := SourceClosure(disk, sources[i].0, sources[i].1);
      if closure.None? { return None, us; }
      var unit := Unit(sources[i].1, closure.value);
      assert KeysOf(sp, us + [unit]) == KeysOf(sp, us) + [KeyOf(sp, unit)];
      ListSnoc(TAG_UNIT, EncodeUnit, KeysOf(sp, us), KeyOf(sp, unit));
      Assoc(head, EncodeList(TAG_UNIT, EncodeUnit, KeysOf(sp, us)), TAG_UNIT + EncodeUnit(KeyOf(sp, unit)));
      out := UpdateUnit(out, sp, unit);
      us := us + [unit];
    }
    stream := Some(out);
  }

  lemma NoUnits()
    ensures EncodeList(TAG_UNIT, EncodeUnit, []) == []
  {
  }
}
