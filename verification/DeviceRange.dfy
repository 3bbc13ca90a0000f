/** Device lists on the command line: the range text a job is given, and the parser it is read with. */
module DeviceRange {
  import opened Prelude
  import opened Sorting
  import opened Text

  // ---- Formatting ------------------------------------------------------------------------------

  function FormatInt(n: int): string { if n < 0 then "-" + FormatNat(-n) else FormatNat(n) }

  function Join(parts: seq<string>): string
    requires parts != []
  {
    if |parts| == 1 then parts[0] else Join(parts[..|parts| - 1]) + "," + parts[|parts| - 1]
  }

  predicate Le(x: int, y: int) { x <= y }

  function FormatAll(ids: seq<int>): (r: seq<string>)
    ensures |r| == |ids| && forall i | 0 <= i < |ids| :: r[i] == FormatInt(ids[i])
  {
    seq(|ids|, i requires 0 <= i < |ids| => FormatInt(ids[i]))
  }

  predicate Contiguous(s: seq<int>) { forall i | 0 <= i < |s| - 1 :: s[i + 1] - s[i] == 1 }

  // One id, a range when the sorted ids are consecutive, a comma list otherwise.
  function DeviceRangeStr(ids: seq<int>): string {
    if ids == [] then ""
    else if |ids| == 1 then FormatInt(ids[0])
    else
      var s := Sort(Le, ids);
      SameLength(s, ids);
      if Contiguous(s) then FormatInt(s[0]) + "-" + FormatInt(s[|s| - 1]) else Join(FormatAll(s))
  }

  // ---- Parsing ---------------------------------------------------------------------------------

  // The white space `str.strip` and `int` skip.
  predicate IsSpace(c: char) {
    || '\U{9}' <= c <= '\U{D}' || '\U{1C}' <= c <= ' ' || c in {'\U{85}', '\U{A0}', '\U{1680}'}
    || '\U{2000}' <= c <= '\U{200A}' || c in {'\U{2028}', '\U{2029}', '\U{202F}', '\U{205F}', '\U{3000}'}
  }

  function Strip(s: string): string {
    if s == "" then ""
    else if IsSpace(s[0]) then Strip(s[1..])
    else if IsSpace(s[|s| - 1]) then Strip(s[..|s| - 1])
    else s
  }

  // `int(s)` on ASCII text without digit separators.
  function IntOf(text: string): Option<int> {
    var s := Strip(text);
    var digits := if s != "" && (s[0] == '-' || s[0] == '+') then s[1..] else s;
    if digits == "" || !AllDigits(digits) then None
    else
      var n: int := ParseNat(digits);
      Some(if s[0] == '-' then -n else n)
  }

  function FirstDash(s: string): (i: nat)
    requires '-' in s
    ensures i < |s| && s[i] == '-' && '-' !in s[..i]
  {
    if s[0] == '-' then 0
    else
      var i := FirstDash(s[1..]);
      assert s[..i + 1] == [s[0]] + s[1..][..i];
      i + 1
  }

  // `range(start, end + 1)`
  function Interval(start: int, end: int): (r: seq<int>)
    ensures forall x :: x in r <==> start <= x <= end
    decreases end - start
  {
    if start > end then [] else [start] + Interval(start + 1, end)
  }

  // The ids one comma-separated part names, or nothing when it is malformed.
  function ParsePart(part: string): Option<seq<int>> {
    var p := Strip(part);
    if p == "" then Some([])
    else if '-' in p then
      var i := FirstDash(p);
      match (IntOf(p[..i]), IntOf(p[i + 1..]))
      case (Some(start), Some(end)) => Some(Interval(start, end))
      case _ => None
    else match IntOf(p)
      case Some(n) => Some([n])
      case None => None
  }

  function ParseParts(parts: seq<string>): Option<seq<int>> {
    if parts == [] then Some([])
    else match (ParseParts(parts[..|parts| - 1]), ParsePart(parts[|parts| - 1]))
      case (Some(ids), Some(more)) => Some(ids + more)
      case _ => None
  }

  // The ids a spec names, in reading order and with repetitions.
  function ParseSpec(spec: string): Option<seq<int>> {
    if spec == "" then Some([]) else ParseParts(Split(spec, ','))
  }

  ghost predicate SameIds(a: seq<int>, b: seq<int>) { forall x :: x in a <==> x in b }

  predicate Ascending(s: seq<int>) { forall i, j | 0 <= i < j < |s| :: s[i] < s[j] }

  // The set of some ids, kept in ascending order.
  function Collected(ids: seq<int>): (r: seq<int>)
    ensures SameIds(r, ids) && Ascending(r)
  {
    if ids == [] then []
    else
      var last := ids[|ids| - 1];
      var before := Collected(ids[..|ids| - 1]);
      assert ids == ids[..|ids| - 1] + [last];
      if last in before then before
      else
        StrictInsert(last, before);
        InsertedIds(last, before);
        Insert(Le, last, before)
  }

  // What `device_range_to_list` answers: the ids a spec names, ascending, each once.
  function ToList(spec: string): Option<seq<int>> {
    match ParseSpec(spec)
    case Some(ids) => Some(Collected(ids))
    case None => None
  }

  // Ascending order leaves no choice.
  lemma {:induction false} AscendingIsUnique(a: seq<int>, b: seq<int>)
    requires Ascending(a) && Ascending(b) && SameIds(a, b)
    ensures a == b
    decreases |a|
  {
    if a == [] {
      assert forall i | 0 <= i < |b| :: b[i] in b;
    } else {
      assert a[0] in b && b != [];
      assert b[0] in a;
      HeadIsLeast(a, b[0]);
      HeadIsLeast(b, a[0]);
      forall x ensures x in a[1..] <==> x in b[1..] {
        TailIds(a, x);
        TailIds(b, x);
      }
      AscendingIsUnique(a[1..], b[1..]);
    }
  }

  lemma HeadIsLeast(s: seq<int>, x: int)
    requires Ascending(s) && x in s
    ensures s[0] <= x
  {
    var i :| 0 <= i < |s| && s[i] == x;
    assert i > 0 ==> s[0] < s[i];
  }

  lemma TailIds(s: seq<int>, x: int)
    requires Ascending(s) && s != []
    ensures x in s[1..] <==> x in s && x != s[0]
  {
    assert s == [s[0]] + s[1..];
    assert forall i | 0 <= i < |s[1..]| :: s[0] < s[1..][i];
  }

  method DeviceRangeToList(spec: string) returns (r: Option<seq<int>>)
    ensures r == ToList(spec)
  {
    hide ParsePart, Split, Ascending, Collected;
    var ids: seq<int> := [];
    NothingAscends();
    if spec == "" {
      AscendingIsUnique([], Collected([]));
      return Some(ids);
    }
    var parts := Split(spec, ',');
    for i := 0 to |parts|
      invariant ParseParts(parts[..i]).Some? && SameIds(ids, ParseParts(parts[..i]).value) && Ascending(ids)
    {
      assert parts[..i + 1][..i] == parts[..i];
      var more := ParsePart(parts[i]);
      if more.None? {
        FailsAtPart(parts, i);
        return None;
      }
      ids := AddAll(ids, more.value);
    }
    assert parts[..|parts|] == parts;
    AscendingIsUnique(ids, Collected(ParseParts(parts).value));
    r := Some(ids);
  }

  lemma NothingAscends()
    ensures Ascending([])
  {
  }

  lemma {:induction false} FailsAtPart(parts: seq<string>, i: nat)
    requires i < |parts| && ParsePart(parts[i]).None?
    ensures ParseParts(parts).None?
  {
    if i < |parts| - 1 { FailsAtPart(parts[..|parts| - 1], i); }
  }

  method AddAll(ids: seq<int>, more: seq<int>) returns (r: seq<int>)
    requires Ascending(ids)
    ensures SameIds(r, ids + more) && Ascending(r)
  {
    hide Ascending, Insert;
    r := ids;
    for i := 0 to |more|
      invariant SameIds(r, ids + more[..i]) && Ascending(r)
    {
      assert more[..i + 1] == more[..i] + [more[i]];
      if more[i] !in r {
        StrictInsert(more[i], r);
        InsertedIds(more[i], r);
        r := Insert(Le, more[i], r);
      }
    }
    assert more[..|more|] == more;
  }

  lemma InsertedIds(x: int, s: seq<int>)
    ensures SameIds(Insert(Le, x, s), s + [x])
  {
    hide Insert;
    var r := Insert(Le, x, s);
    forall y ensures y in r <==> y in s + [x] {
      assert y in r <==> y in multiset(r);
      assert y in s <==> y in multiset(s);
    }
  }

  lemma AscendCons(x: int, s: seq<int>)
    requires Ascending(s) && forall y | y in s :: x < y
    ensures Ascending([x] + s)
  {
    var r := [x] + s;
    forall i, j | 0 <= i < j < |r| ensures r[i] < r[j] {
      assert r[j] == s[j - 1] && s[j - 1] in s;
      if i > 0 { assert r[i] == s[i - 1]; }
    }
  }

  lemma AscendTail(s: seq<int>)
    requires Ascending(s) && s != []
    ensures Ascending(s[1..]) && forall y | y in s[1..] :: s[0] < y
  {
  }

  lemma {:induction false} StrictInsert(x: int, s: seq<int>)
    requires x !in s && Ascending(s)
    ensures Ascending(Insert(Le, x, s))
  {
    hide Ascending;
    if s == [] {
      AscendCons(x, s);
    } else {
      AscendTail(s);
      assert s == [s[0]] + s[1..];
      if Le(x, s[0]) {
        AscendCons(x, s);
      } else {
        var rest := Insert(Le, x, s[1..]);
        StrictInsert(x, s[1..]);
        InsertedIds(x, s[1..]);
        AscendCons(s[0], rest);
      }
    }
  }

  // ---- The round trip --------------------------------------------------------------------------

  // Text that neither stripping nor splitting touches.
  lemma DigitsAreBare(n: nat)
    ensures var t := FormatNat(n); Strip(t) == t && '-' !in t && ',' !in t && IntOf(t) == Some(n)
  {
    var t := FormatNat(n);
    assert t[0] in t && t[|t| - 1] in t;
    ParseFormatNat(n);
  }

  lemma NatPart(n: nat)
    ensures ParsePart(FormatNat(n)) == Some([n])
  {
    hide FormatNat, Strip, IntOf;
    DigitsAreBare(n);
  }

  lemma {:induction false} FirstDashAt(s: string, e: string)
    requires '-' !in s
    ensures '-' in s + "-" + e && FirstDash(s + "-" + e) == |s|
  {
    var t := s + "-" + e;
    assert t[|s|] == '-';
    if s != "" {
      assert t[0] == s[0] && t[1..] == s[1..] + "-" + e;
      FirstDashAt(s[1..], e);
    }
  }

  lemma RangePart(a: nat, b: nat)
    ensures var t := FormatNat(a) + "-" + FormatNat(b); ',' !in t && ParsePart(t) == Some(Interval(a, b))
  {
    hide FormatNat, IntOf;
    var s, e := FormatNat(a), FormatNat(b);
    var t := s + "-" + e;
    DigitsAreBare(a);
    DigitsAreBare(b);
    assert t[0] == s[0] && s[0] in s && t[|t| - 1] == e[|e| - 1] && e[|e| - 1] in e;
    assert Strip(t) == t;
    FirstDashAt(s, e);
    assert t[..|s|] == s && t[|s| + 1..] == e;
  }

  // A text that starts with a dash has no start number.
  lemma LeadingDash(rest: string)
    requires rest != "" && !IsSpace(rest[|rest| - 1])
    ensures ParsePart("-" + rest) == None
  {
    var t := "-" + rest;
    assert Strip(t) == t && '-' in t && FirstDash(t) == 0 && t[..0] == "";
  }

  lemma NegativePart(n: int)
    requires n < 0
    ensures ParsePart(FormatInt(n)) == None && ',' !in FormatInt(n)
  {
    hide FormatNat, ParsePart;
    var d := FormatNat(-n);
    assert d[|d| - 1] in d;
    LeadingDash(d);
  }

  lemma {:induction false} SplitJoin(parts: seq<string>)
    requires parts != [] && forall p | p in parts :: ',' !in p
    ensures Split(Join(parts), ',') == parts
  {
    hide Split;
    var last := parts[|parts| - 1];
    SplitPlain(',', last);
    if |parts| > 1 {
      SplitJoin(parts[..|parts| - 1]);
      SplitAtSeparator(',', Join(parts[..|parts| - 1]), last);
    }
    assert parts == parts[..|parts| - 1] + [last];
  }

  lemma OneNat(n: int)
    requires n >= 0
    ensures ParsePart(FormatInt(n)) == Some([n])
  {
    hide ParsePart, FormatNat;
    NatPart(n);
  }

  lemma {:induction false} PartsOfAll(ids: seq<int>)
    requires forall x | x in ids :: x >= 0
    ensures ParseParts(FormatAll(ids)) == Some(ids)
  {
    hide ParsePart, FormatInt;
    if ids == [] {
      assert FormatAll(ids) == [];
    } else {
      var before, last := ids[..|ids| - 1], ids[|ids| - 1];
      assert last in ids && forall x | x in before :: x in ids;
      PartsOfAll(before);
      OneNat(last);
      assert FormatAll(ids)[..|ids| - 1] == FormatAll(before);
      assert ids == before + [last];
    }
  }

  lemma PlainText(n: int)
    ensures ',' !in FormatInt(n) && FormatInt(n) != ""
  {
    hide FormatNat;
    if n < 0 { NegativePart(n); } else { DigitsAreBare(n); }
  }

  lemma OnePart(t: string)
    requires t != "" && ',' !in t
    ensures ParseSpec(t) == ParsePart(t)
  {
    hide ParsePart, Split;
    SplitPlain(',', t);
    assert [t][..0] == [] && ParseParts([]) == Some([]);
    if ParsePart(t).Some? { assert [] + ParsePart(t).value == ParsePart(t).value; }
  }

  lemma JoinedSpec(ids: seq<int>)
    requires ids != []
    ensures ParseSpec(Join(FormatAll(ids))) == ParseParts(FormatAll(ids))
  {
    hide ParseParts, Split, FormatInt;
    var parts := FormatAll(ids);
    forall p | p in parts ensures ',' !in p && p != "" {
      var i :| 0 <= i < |parts| && parts[i] == p;
      PlainText(ids[i]);
    }
    SplitJoin(parts);
    assert parts[|parts| - 1] in parts;
  }

  lemma {:induction false} ConsecutiveAt(s: seq<int>, i: nat)
    requires Contiguous(s) && i < |s|
    ensures s[i] == s[0] + i
  {
    if i > 0 { ConsecutiveAt(s, i - 1); }
  }

  lemma {:induction false} ConsecutiveIds(s: seq<int>)
    requires Contiguous(s) && s != []
    ensures Interval(s[0], s[|s| - 1]) == s
  {
    ConsecutiveAt(s, |s| - 1);
    if |s| == 1 {
      assert Interval(s[0] + 1, s[0]) == [];
    } else {
      forall i | 0 <= i < |s[1..]| - 1 ensures s[1..][i + 1] - s[1..][i] == 1 {
        assert s[(i + 1) + 1] - s[i + 1] == 1;
      }
      ConsecutiveIds(s[1..]);
    }
  }

  lemma SortedIds(ids: seq<int>)
    requires ids != []
    ensures var s := Sort(Le, ids); |s| == |ids| && SameIds(s, ids) && (forall x | x in s :: s[0] <= x)
  {
    var s := Sort(Le, ids);
    SortSorts(Le, ids);
    SameLength(s, ids);
    forall x ensures x in s <==> x in ids {
      assert x in s <==> x in multiset(s);
      assert x in ids <==> x in multiset(ids);
    }
    forall i | 0 <= i < |s| ensures s[0] <= s[i] {
      assert i > 0 ==> Le(s[0], s[i]);
    }
  }

  lemma RangeSpec(s: seq<int>)
    requires |s| > 1 && Contiguous(s)
    ensures ParseSpec(FormatInt(s[0]) + "-" + FormatInt(s[|s| - 1])) == if s[0] >= 0 then Some(s) else None
  {
    hide FormatNat, ParsePart, ParseSpec, Interval;
    var last := s[|s| - 1];
    var t := FormatInt(s[0]) + "-" + FormatInt(last);
    PlainText(s[0]);
    PlainText(last);
    OnePart(t);
    if s[0] >= 0 {
      ConsecutiveAt(s, |s| - 1);
      RangePart(s[0], last);
      ConsecutiveIds(s);
    } else {
      var d := if last < 0 then FormatNat(-last) else FormatNat(last);
      assert d[|d| - 1] in d;
      var rest := FormatNat(-s[0]) + "-" + FormatInt(last);
      assert t == "-" + rest && rest[|rest| - 1] == d[|d| - 1];
      LeadingDash(rest);
    }
  }

  lemma ListSpec(s: seq<int>)
    requires s != [] && forall x | x in s :: s[0] <= x
    ensures ParseSpec(Join(FormatAll(s))) == if s[0] >= 0 then Some(s) else None
  {
    hide FormatInt, ParsePart, ParseParts, ParseSpec;
    JoinedSpec(s);
    if s[0] < 0 {
      NegativePart(s[0]);
      FailsAtPart(FormatAll(s), 0);
    } else {
      PartsOfAll(s);
    }
  }

  lemma OneId(n: int)
    ensures ParseSpec(FormatInt(n)) == if n >= 0 then Some([n]) else None
  {
    hide ParsePart, ParseSpec, FormatInt;
    PlainText(n);
    OnePart(FormatInt(n));
    if n >= 0 { OneNat(n); } else { NegativePart(n); }
  }

  lemma ManyIds(ids: seq<int>, s: seq<int>)
    requires |ids| > 1 && s == Sort(Le, ids) && |s| == |ids| && forall x | x in s :: s[0] <= x
    ensures ParseSpec(DeviceRangeStr(ids)) == if s[0] >= 0 then Some(s) else None
  {
    hide FormatInt, ParsePart, ParseParts, ParseSpec, Split, Join, Contiguous, Interval, Sort;
    if Contiguous(s) {
      assert DeviceRangeStr(ids) == FormatInt(s[0]) + "-" + FormatInt(s[|s| - 1]);
      RangeSpec(s);
    } else {
      assert DeviceRangeStr(ids) == Join(FormatAll(s));
      ListSpec(s);
    }
  }

  // The text of a list names its ids in sorted order, exactly when none is negative; otherwise it does
  // not parse at all.
  lemma TextNamesSorted(ids: seq<int>)
    ensures ParseSpec(DeviceRangeStr(ids)) == if forall x | x in ids :: x >= 0 then Some(Sort(Le, ids)) else None
  {
    hide ParseSpec, FormatInt;
    if |ids| > 1 {
      hide DeviceRangeStr, Sort;
      var s := Sort(Le, ids);
      SortedIds(ids);
      ManyIds(ids, s);
      assert s[0] in s && s[0] in ids && forall x | x in ids :: x in s;
    } else if |ids| == 1 {
      OneId(ids[0]);
      assert Sort(Le, ids) == ids == [ids[0]];
      assert ids[0] in ids && forall x | x in ids :: x == ids[0];
    } else {
      NoIds();
    }
  }

  predicate NoRepetition(ids: seq<int>) { forall i, j | 0 <= i < j < |ids| :: ids[i] != ids[j] }

  // Sorting gives an ascending list exactly when nothing repeats.
  lemma SortAscendsIff(ids: seq<int>)
    ensures Ascending(Sort(Le, ids)) <==> NoRepetition(ids)
  {
    var s := Sort(Le, ids);
    SortSorts(Le, ids);
    if Ascending(s) {
      forall x ensures multiset(ids)[x] <= 1 { CountsOnce(s, x); }
      OnceEach(ids);
    } else {
      var i, j :| 0 <= i < j < |s| && s[i] >= s[j];
      assert Le(s[i], s[j]);
      TwiceIn(s, i, j);
      if NoRepetition(ids) { CountsOnce(ids, s[i]); }
    }
  }

  lemma {:induction false} CountsOnce(s: seq<int>, x: int)
    requires NoRepetition(s)
    ensures multiset(s)[x] <= 1
    ensures multiset(s)[x] == 1 <==> x in s
  {
    if s != [] {
      CountsOnce(s[1..], x);
      assert s == [s[0]] + s[1..];
    }
  }

  lemma TwiceIn(s: seq<int>, i: nat, j: nat)
    requires i < j < |s| && s[i] == s[j]
    ensures multiset(s)[s[i]] >= 2
  {
    assert s == s[..j] + s[j..];
    assert s[i] in s[..j] && s[j..][0] == s[j] && s[j] in s[j..];
  }

  lemma OnceEach(ids: seq<int>)
    requires forall x :: multiset(ids)[x] <= 1
    ensures NoRepetition(ids)
  {
    forall i, j | 0 <= i < j < |ids| ensures ids[i] != ids[j] {
      if ids[i] == ids[j] { TwiceIn(ids, i, j); }
    }
  }

  // An ascending list is its own sorted form.
  lemma AscendingIsSorted(ids: seq<int>)
    requires Ascending(ids)
    ensures Sort(Le, ids) == ids
  {
    SortSorts(Le, ids);
    SortedIsUnique(Le, Sort(Le, ids), ids);
  }

  // The round trip through both functions: it parses exactly when no id is negative and then lists the
  // same ids, ascending; that is the sorted list exactly when nothing repeats as well, and the list
  // itself exactly when it was ascending already.
  lemma RoundTrip(ids: seq<int>)
    ensures var r := ToList(DeviceRangeStr(ids)); var natural := forall x | x in ids :: x >= 0;
            && (r.Some? <==> natural)
            && (r.Some? ==> Ascending(r.value) && SameIds(r.value, ids))
            && (r == Some(Sort(Le, ids)) <==> natural && NoRepetition(ids))
            && (r == Some(ids) <==> natural && Ascending(ids))
  {
    hide ParseSpec, DeviceRangeStr, Collected, Ascending, NoRepetition;
    TextNamesSorted(ids);
    var s := Sort(Le, ids);
    SortHasIds(ids);
    SortAscendsIff(ids);
    if Ascending(s) { AscendingIsUnique(Collected(s), s); }
    if Ascending(ids) { AscendingIsSorted(ids); }
  }

  lemma SortHasIds(ids: seq<int>)
    ensures SameIds(Sort(Le, ids), ids)
  {
    hide Sort;
    forall x ensures x in Sort(Le, ids) <==> x in ids {
      assert x in Sort(Le, ids) <==> x in multiset(Sort(Le, ids));
      assert x in ids <==> x in multiset(ids);
    }
  }

  // A repetition is lost: [1, 1] reads back as [1].
  lemma RepetitionIsLost()
    ensures ToList(DeviceRangeStr([1, 1])) == Some([1])
    ensures Sort(Le, [1, 1]) != [1]
  {
    hide DeviceRangeStr, ToList;
    var ids := [1, 1];
    RoundTrip(ids);
    var r := ToList(DeviceRangeStr(ids)).value;
    assert 1 in ids;
    AscendingIsUnique(r, [1]);
    SameLength(Sort(Le, ids), ids);
  }

  lemma NoIds()
    ensures ParseSpec("") == Some([])
  {
  }
}
