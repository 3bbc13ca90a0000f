/** Extraction of the `.text` payload of an ELF-64 image (System V gABI, chapter 4: Sections and Symbol
    Table): which images are accepted, and exactly which bytes come out. */
module ElfText {
  import opened Prelude
  import opened LittleEndian

  const SHDR_SIZE: nat := 64
  const SYM_SIZE: nat := 24
  const SHT_PROGBITS: nat := 1
  const SHT_SYMTAB: nat := 2
  const SHT_RELA: nat := 4

  const TEXT: Bytes := [46, 116, 101, 120, 116]                                     // .text
  const TEXT_DOT: Bytes := [46, 116, 101, 120, 116, 46]                             // .text.
  const RELA_TEXT: Bytes := [46, 114, 101, 108, 97, 46, 116, 101, 120, 116]         // .rela.text
  const RODATA: Bytes := [46, 114, 111, 100, 97, 116, 97]                           // .rodata
  const RODATA_DOT: Bytes := [46, 114, 111, 100, 97, 116, 97, 46]                   // .rodata.
  const ENTRY: Bytes := [107, 101, 114, 110, 101, 108, 95, 101, 110, 116, 114, 121] // kernel_entry

  datatype Error = TooSmall | NoSections | BadStringIndex | TableOutOfBounds | StringsOutOfBounds | NameOutOfBounds
    | TextOutOfBounds | UnresolvedText | ReadOnlyData | NoText | EntryMisplaced

  // ---- Reading ---------------------------------------------------------------------------------

  function Read(data: Bytes, at: nat, k: nat): nat
    requires at + k <= |data|
  {
    FromLittle(data[at..at + k])
  }

  datatype Section = Section(name: nat, kind: nat, flags: nat, addr: nat, offset: nat, size: nat, link: nat)

  function SectionAt(data: Bytes, at: nat): Section
    requires at + SHDR_SIZE <= |data|
  {
    Section(Read(data, at, 4), Read(data, at + 4, 4), Read(data, at + 8, 8), Read(data, at + 16, 8), Read(data, at + 24, 8),
            Read(data, at + 32, 8), Read(data, at + 40, 4))
  }

  datatype Header = Header(shoff: nat, shnum: nat, shstrndx: nat)

  function HeaderOf(data: Bytes): Header
    requires |data| >= SHDR_SIZE
  {
    Header(Read(data, 40, 8), Read(data, 60, 2), Read(data, 62, 2))
  }

  // The section header table lies in the image and has a string-table entry.
  predicate HasTable(data: Bytes) {
    && |data| >= SHDR_SIZE
    && var h := HeaderOf(data); h.shstrndx < h.shnum && h.shoff + h.shnum * SHDR_SIZE <= |data|
  }

  function Sections(data: Bytes): seq<Section>
    requires HasTable(data)
  {
    var h := HeaderOf(data);
    seq(h.shnum, i requires 0 <= i < h.shnum => SectionAt(data, h.shoff + i * SHDR_SIZE))
  }

  predicate Fits(data: Bytes, s: Section) { s.offset + s.size <= |data| }

  function Contents(data: Bytes, s: Section): Bytes
    requires Fits(data, s)
  {
    data[s.offset..s.offset + s.size]
  }

  predicate Readable(data: Bytes) { HasTable(data) && Fits(data, Sections(data)[HeaderOf(data).shstrndx]) }

  function Names(data: Bytes): Bytes
    requires Readable(data)
  {
    Contents(data, Sections(data)[HeaderOf(data).shstrndx])
  }

  // Bytes up to the next NUL or the end, without the ones that are not ASCII.
  function CString(data: Bytes, at: nat): (r: Bytes)
    requires at <= |data|
    ensures |r| <= |data| - at && forall b | b in r :: 0 < b < 0x80
    decreases |data| - at
  {
    if at == |data| || data[at] == 0 then []
    else (if data[at] < 0x80 then [data[at]] else []) + CString(data, at + 1)
  }

  // A NUL-terminated ASCII name is read back whole, wherever it lies in its table.
  lemma {:induction false} NameReadsBack(before: Bytes, name: Bytes, after: Bytes)
    requires forall b | b in name :: 0 < b < 0x80
    ensures CString(before + name + [0] + after, |before|) == name
    decreases |name|
  {
    var table := before + name + [0] + after;
    if name != [] {
      assert name[0] in name && table[|before|] == name[0];
      assert table == (before + [name[0]]) + name[1..] + [0] + after;
      assert forall b | b in name[1..] :: b in name;
      NameReadsBack(before + [name[0]], name[1..], after);
      assert name == [name[0]] + name[1..];
    } else {
      assert table[|before|] == 0;
    }
  }

  // ---- What a section is -----------------------------------------------------------------------

  predicate NameIn(names: Bytes, s: Section) { s.name < |names| }

  function NameOf(names: Bytes, s: Section): Bytes { if NameIn(names, s) then CString(names, s.name) else [] }

  predicate IsText(names: Bytes, s: Section) { s.kind == SHT_PROGBITS && NameOf(names, s) == TEXT }

  predicate OutOfLine(names: Bytes, s: Section) { s.kind == SHT_PROGBITS && TEXT_DOT <= NameOf(names, s) }

  predicate RelocatesText(names: Bytes, s: Section) { s.kind == SHT_RELA && RELA_TEXT <= NameOf(names, s) }

  predicate IsAllocated(s: Section) { s.flags / 2 % 2 == 1 }

  predicate Constants(names: Bytes, s: Section) {
    && s.kind == SHT_PROGBITS && IsAllocated(s) && s.size != 0
    && (NameOf(names, s) == RODATA || RODATA_DOT <= NameOf(names, s))
  }

  // Nothing outside `.text` would be needed at run time.
  predicate SelfContained(names: Bytes, s: Section) {
    !OutOfLine(names, s) && !RelocatesText(names, s) && !Constants(names, s)
  }

  // ---- The entry symbol ------------------------------------------------------------------------

  predicate Usable(data: Bytes, secs: seq<Section>, i: nat) {
    && i < |secs| && secs[i].kind == SHT_SYMTAB && secs[i].link < |secs|
    && Fits(data, secs[i]) && Fits(data, secs[secs[i].link])
  }

  function SymbolAt(s: Section, k: nat): nat { s.offset + k * SYM_SIZE }

  // Symbol `k` of section `i` is named as the entry point.
  predicate IsEntry(data: Bytes, secs: seq<Section>, i: nat, k: nat) {
    && Usable(data, secs, i) && k < secs[i].size / SYM_SIZE
    && var strings := Contents(data, secs[secs[i].link]);
       var name := Read(data, SymbolAt(secs[i], k), 4);
       name < |strings| && CString(strings, name) == ENTRY
  }

  ghost predicate FirstEntry(data: Bytes, secs: seq<Section>, i: nat, k: nat) {
    && IsEntry(data, secs, i, k)
    && (forall j: nat, l: nat | j < i :: !IsEntry(data, secs, j, l))
    && (forall l: nat | l < k :: !IsEntry(data, secs, i, l))
  }

  // An entry symbol sits at the start of section `text`.
  predicate AtStart(data: Bytes, secs: seq<Section>, i: nat, k: nat, text: nat)
    requires IsEntry(data, secs, i, k) && text < |secs|
  {
    && Read(data, SymbolAt(secs[i], k) + 6, 2) == text
    && Read(data, SymbolAt(secs[i], k) + 8, 8) == secs[text].addr
  }

  ghost predicate EntryIsFirst(data: Bytes, secs: seq<Section>, text: nat)
    requires text < |secs|
  {
    forall i: nat, k: nat | FirstEntry(data, secs, i, k) :: AtStart(data, secs, i, k, text)
  }

  // ---- What is accepted ------------------------------------------------------------------------

  ghost predicate LastText(names: Bytes, secs: seq<Section>, t: nat) {
    t < |secs| && IsText(names, secs[t]) && forall i | t < i < |secs| :: !IsText(names, secs[i])
  }

  // Every section name lies in the string table and every `.text` in the image.
  predicate WellNamed(data: Bytes, names: Bytes, secs: seq<Section>) {
    forall i | 0 <= i < |secs| :: NameIn(names, secs[i]) && (IsText(names, secs[i]) ==> Fits(data, secs[i]))
  }

  ghost predicate Accepted(data: Bytes) {
    && Readable(data)
    && var names, secs := Names(data), Sections(data);
       && WellNamed(data, names, secs)
       && (forall i | 0 <= i < |secs| :: SelfContained(names, secs[i]))
       && exists t: nat :: LastText(names, secs, t) && EntryIsFirst(data, secs, t)
  }

  // Exactly the bytes of the last `.text`.
  ghost predicate IsPayload(data: Bytes, names: Bytes, secs: seq<Section>, payload: Bytes) {
    exists t: nat :: LastText(names, secs, t) && Fits(data, secs[t]) && payload == Contents(data, secs[t])
  }

  // ---- Scanning --------------------------------------------------------------------------------

  datatype Scan = Scan(text: Option<nat>, outOfLine: seq<nat>, relocations: seq<nat>, constants: seq<nat>)

  // What the scan has collected from the first `n` sections.
  ghost predicate Collected(names: Bytes, secs: seq<Section>, n: nat, r: Scan)
    requires n <= |secs|
  {
    && (match r.text
        case None => forall i | 0 <= i < n :: !IsText(names, secs[i])
        case Some(t) => t < n && IsText(names, secs[t]) && forall i | t < i < n :: !IsText(names, secs[i]))
    && (r.outOfLine == [] <==> forall i | 0 <= i < n :: !OutOfLine(names, secs[i]))
    && (r.relocations == [] <==> forall i | 0 <= i < n :: !RelocatesText(names, secs[i]))
    && (r.constants == [] <==> forall i | 0 <= i < n :: !Constants(names, secs[i]))
  }

  // A section is at most one of the four kinds.
  lemma KindsExclude(names: Bytes, s: Section)
    ensures IsText(names, s) ==> SelfContained(names, s)
    ensures OutOfLine(names, s) ==> !RelocatesText(names, s) && !Constants(names, s)
    ensures RelocatesText(names, s) ==> !Constants(names, s)
  {
    hide CString;
    var n := NameOf(names, s);
    if TEXT_DOT <= n { assert n[1] == TEXT_DOT[1]; }
    if RODATA_DOT <= n { assert n[1] == RODATA_DOT[1]; }
  }

  // Where section `i` is filed.
  function Filed(names: Bytes, s: Section, i: nat, r: Scan): Scan {
    if IsText(names, s) then r.(text := Some(i))
    else if OutOfLine(names, s) then r.(outOfLine := r.outOfLine + [i])
    else if RelocatesText(names, s) then r.(relocations := r.relocations + [i])
    else if Constants(names, s) then r.(constants := r.constants + [i])
    else r
  }

  lemma CollectStep(names: Bytes, secs: seq<Section>, i: nat, r: Scan)
    requires i < |secs| && Collected(names, secs, i, r)
    ensures Collected(names, secs, i + 1, Filed(names, secs[i], i, r))
  {
    hide IsText, OutOfLine, RelocatesText, Constants;
    KindsExclude(names, secs[i]);
  }

  lemma NothingCollected(names: Bytes, secs: seq<Section>)
    ensures Collected(names, secs, 0, Scan(None, [], [], []))
  {
  }

  ghost predicate ScanFault(data: Bytes, names: Bytes, secs: seq<Section>, e: Error) {
    || (e == NameOutOfBounds && exists i | 0 <= i < |secs| :: !NameIn(names, secs[i]))
    || (e == TextOutOfBounds && exists i | 0 <= i < |secs| :: IsText(names, secs[i]) && !Fits(data, secs[i]))
  }

  // What each rejection means; the earlier checks have passed.
  ghost predicate Justified(data: Bytes, e: Error) {
    if |data| < SHDR_SIZE then e == TooSmall
    else if HeaderOf(data).shnum == 0 then e == NoSections
    else if HeaderOf(data).shstrndx >= HeaderOf(data).shnum then e == BadStringIndex
    else if !HasTable(data) then e == TableOutOfBounds
    else if !Readable(data) then e == StringsOutOfBounds
    else
      var names, secs := Names(data), Sections(data);
      if !WellNamed(data, names, secs) then ScanFault(data, names, secs, e)
      else if exists i | 0 <= i < |secs| :: OutOfLine(names, secs[i]) || RelocatesText(names, secs[i]) then e == UnresolvedText
      else if exists i | 0 <= i < |secs| :: Constants(names, secs[i]) then e == ReadOnlyData
      else if forall i | 0 <= i < |secs| :: !IsText(names, secs[i]) then e == NoText
      else e == EntryMisplaced
  }

  method ScanSections(data: Bytes) returns (r: Result<Scan, Error>)
    requires Readable(data)
    ensures r.Ok? <==> WellNamed(data, Names(data), Sections(data))
    ensures r.Ok? ==> Collected(Names(data), Sections(data), |Sections(data)|, r.value)
    ensures r.Err? ==> ScanFault(data, Names(data), Sections(data), r.error)
  {
    hide CString, NameOf, Read, IsText, OutOfLine, RelocatesText, Constants, Collected;
    var h := HeaderOf(data);
    var names := Names(data);
    ghost var secs := Sections(data);
    var text: Option<nat> := None;
    var outOfLine: seq<nat>, relocations: seq<nat>, constants: seq<nat> := [], [], [];
    NothingCollected(names, secs);
    for i := 0 to h.shnum
      invariant WellNamed(data, names, secs[..i])
      invariant Collected(names, secs, i, Scan(text, outOfLine, relocations, constants))
    {
      var s := SectionAt(data, h.shoff + i * SHDR_SIZE);
      assert s == secs[i] && secs[..i + 1] == secs[..i] + [s];
      if s.name >= |names| { return Err(NameOutOfBounds); }
      CollectStep(names, secs, i, Scan(text, outOfLine, relocations, constants));
      if IsText(names, s) {
        if s.size > |data| || s.offset > |data| - s.size { return Err(TextOutOfBounds); }
        text := Some(i);
      } else if OutOfLine(names, s) {
        outOfLine := outOfLine + [i];
      } else if RelocatesText(names, s) {
        relocations := relocations + [i];
      } else if Constants(names, s) {
        constants := constants + [i];
      }
    }
    assert secs[..h.shnum] == secs;
    r := Ok(Scan(text, outOfLine, relocations, constants));
  }

  // The first entry symbol of one symbol table.
  method FindEntry(data: Bytes, secs: seq<Section>, i: nat) returns (r: Option<nat>)
    requires Usable(data, secs, i)
    ensures r.None? ==> forall l: nat :: !IsEntry(data, secs, i, l)
    ensures r.Some? ==> IsEntry(data, secs, i, r.value) && forall l: nat | l < r.value :: !IsEntry(data, secs, i, l)
  {
    hide CString, Read;
    var strings := Contents(data, secs[secs[i].link]);
    for k := 0 to secs[i].size / SYM_SIZE
      invariant forall l: nat | l < k :: !IsEntry(data, secs, i, l)
    {
      var name := Read(data, SymbolAt(secs[i], k), 4);
      if name >= |strings| || CString(strings, name) != ENTRY { continue; }
      return Some(k);
    }
    r := None;
  }

  method CheckEntry(data: Bytes, text: nat) returns (ok: bool)
    requires HasTable(data) && text < |Sections(data)|
    ensures ok <==> EntryIsFirst(data, Sections(data), text)
  {
    hide CString, Read;
    var secs := Sections(data);
    for i := 0 to |secs|
      invariant forall j: nat, l: nat | j < i :: !IsEntry(data, secs, j, l)
    {
      if secs[i].kind != SHT_SYMTAB { continue; }
      if secs[i].link >= |secs| || secs[i].size > |data| || secs[i].offset > |data| - secs[i].size { continue; }
      var strings := secs[secs[i].link];
      if strings.size > |data| || strings.offset > |data| - strings.size { continue; }
      var found := FindEntry(data, secs, i);
      if found.None? { continue; }
      var entry := SymbolAt(secs[i], found.value);
      ok := Read(data, entry + 6, 2) == text && Read(data, entry + 8, 8) == secs[text].addr;
      OneFirstEntry(data, secs, i, found.value, text);
      return;
    }
    ok := true;
  }

  // There is one first entry symbol, so its placement decides.
  lemma OneFirstEntry(data: Bytes, secs: seq<Section>, i: nat, k: nat, text: nat)
    requires text < |secs| && FirstEntry(data, secs, i, k)
    ensures EntryIsFirst(data, secs, text) <==> AtStart(data, secs, i, k, text)
  {
    hide IsEntry;
    forall j: nat, l: nat | FirstEntry(data, secs, j, l) ensures j == i && l == k {
    }
  }

  // ---- Extraction ------------------------------------------------------------------------------

  // For every byte string: the image is either rejected or yields exactly the bytes of its last
  // `.text`, and it is accepted exactly when nothing it needs lies outside them and its entry symbol,
  // if it has one, is at their start.
  method Extract(data: Bytes) returns (r: Result<Bytes, Error>)
    ensures r.Ok? <==> Accepted(data)
    ensures r.Ok? ==> Readable(data) && IsPayload(data, Names(data), Sections(data), r.value)
    ensures r.Err? ==> Justified(data, r.error)
  {
    hide CString, Read, IsEntry, EntryIsFirst, IsText, OutOfLine, RelocatesText, Constants;
    if |data| < SHDR_SIZE { return Err(TooSmall); }
    var h := HeaderOf(data);
    if h.shnum == 0 { return Err(NoSections); }
    if h.shstrndx >= h.shnum { return Err(BadStringIndex); }
    if h.shoff > |data| - h.shnum * SHDR_SIZE { return Err(TableOutOfBounds); }
    var strings := SectionAt(data, h.shoff + h.shstrndx * SHDR_SIZE);
    assert strings == Sections(data)[h.shstrndx];
    if strings.size > |data| || strings.offset > |data| - strings.size { return Err(StringsOutOfBounds); }
    ghost var names, secs := Names(data), Sections(data);
    var scanned := ScanSections(data);
    if scanned.Err? { return Err(scanned.error); }
    var scan := scanned.value;
    if scan.outOfLine != [] || scan.relocations != [] { return Err(UnresolvedText); }
    if scan.constants != [] { return Err(ReadOnlyData); }
    if scan.text.None? { return Err(NoText); }
    var t := scan.text.value;
    assert LastText(names, secs, t);
    var ok := CheckEntry(data, t);
    if !ok {
      assert forall u: nat | LastText(names, secs, u) :: u == t;
      return Err(EntryMisplaced);
    }
    var text := SectionAt(data, h.shoff + t * SHDR_SIZE);
    assert text == secs[t];
    r := Ok(data[text.offset..text.offset + text.size]);
    assert r.value == Contents(data, secs[t]);
  }
}
