/** Worker paths: formatting, parsing, and when the textual "prefix plus slash" test is descent in
    the worker tree. */
module EndpointPaths {
  import opened Prelude
  import opened Text

  // ---- One segment -----------------------------------------------------------------------------

  datatype Segment = Segment(level: nat, index: Option<nat>)

  // A segment whose numbers are spelled with these digits.
  function Spell(level: string, index: Option<string>): string {
    "L" + level + (if index.Some? then "[" + index.value + "]" else [])
  }

  function FormatSegment(g: Segment): string {
    Spell(FormatNat(g.level), if g.index.Some? then Some(FormatNat(g.index.value)) else None)
  }

  // How many digits the text starts with.
  function DigitRun(s: string): (n: nat)
    ensures n <= |s| && AllDigits(s[..n]) && (n < |s| ==> !IsDigit(s[n]))
  {
    if s == [] || !IsDigit(s[0]) then 0
    else
      var n := DigitRun(s[1..]);
      assert s[..n + 1] == [s[0]] + s[1..][..n];
      n + 1
  }

  // Nothing, or digits in brackets.
  function ParseIndex(rest: string): Option<Option<nat>> {
    if rest == [] then Some(None)
    else if rest[0] != '[' then None
    else
      var m := DigitRun(rest[1..]);
      if m == 0 || rest[1..][m..] != "]" then None else Some(Some(ParseNat(rest[1..][..m])))
  }

  function ParseNumbers(t: string): Option<Segment> {
    var n := DigitRun(t);
    if n == 0 then None
    else match ParseIndex(t[n..])
      case Some(index) => Some(Segment(ParseNat(t[..n]), index))
      case None => None
  }

  // The pattern "L", digits, and optionally digits in brackets. Its `$` also matches before a final
  // newline, so one trailing newline is ignored.
  function ParseSegment(raw: string): Option<Segment> {
    var t := if raw != [] && raw[|raw| - 1] == '\n' then raw[..|raw| - 1] else raw;
    if t == [] || t[0] != 'L' then None else ParseNumbers(t[1..])
  }

  lemma {:induction false} DigitRunStops(d: string, rest: string)
    requires AllDigits(d) && (rest != [] ==> !IsDigit(rest[0]))
    ensures DigitRun(d + rest) == |d|
  {
    if d != [] {
      assert (d + rest)[1..] == d[1..] + rest;
      DigitRunStops(d[1..], rest);
    } else {
      assert d + rest == rest;
    }
  }

  predicate Digits(d: string) { d != [] && AllDigits(d) }

  lemma TakeDrop(a: string, b: string)
    ensures (a + b)[..|a|] == a && (a + b)[|a|..] == b
  {
  }

  lemma ParseSpelledNumbers(d: string, tail: string)
    requires Digits(d) && (tail != [] ==> !IsDigit(tail[0]))
    ensures ParseNumbers(d + tail) == match ParseIndex(tail)
                                      case Some(index) => Some(Segment(ParseNat(d), index))
                                      case None => None
  {
    hide DigitRun, ParseNat, ParseIndex;
    DigitRunStops(d, tail);
    TakeDrop(d, tail);
  }

  lemma ParseSpelledIndex(e: string)
    requires Digits(e)
    ensures ParseIndex("[" + e + "]") == Some(Some(ParseNat(e)))
  {
    hide DigitRun, ParseNat;
    var rest := "[" + e + "]";
    assert rest[0] == '[' && rest[1..] == e + "]";
    DigitRunStops(e, "]");
    TakeDrop(e, "]");
  }

  lemma ParseBare(t: string)
    requires t != [] && t[|t| - 1] != '\n'
    ensures ParseSegment("L" + t) == ParseNumbers(t)
  {
    hide ParseNumbers;
    var raw := "L" + t;
    assert raw[|raw| - 1] == t[|t| - 1] && raw[1..] == t;
  }

  // Any spelling of the digits is accepted, leading zeros included.
  lemma ParseSpelledRoot(d: string)
    requires Digits(d)
    ensures ParseSegment(Spell(d, None)) == Some(Segment(ParseNat(d), None))
  {
    hide ParseSegment, ParseNumbers, ParseNat;
    assert d[|d| - 1] in d && d + [] == d && Spell(d, None) == "L" + d;
    ParseBare(d);
    ParseSpelledNumbers(d, []);
  }

  lemma ParseSpelledChild(d: string, e: string)
    requires Digits(d) && Digits(e)
    ensures ParseSegment(Spell(d, Some(e))) == Some(Segment(ParseNat(d), Some(ParseNat(e))))
  {
    hide ParseSegment, ParseNumbers, ParseNat, ParseIndex;
    var tail := "[" + e + "]";
    assert Spell(d, Some(e)) == "L" + (d + tail);
    assert tail[0] == '[' && (d + tail)[|d + tail| - 1] == ']';
    ParseBare(d + tail);
    ParseSpelledNumbers(d, tail);
    ParseSpelledIndex(e);
  }

  lemma ParseFormatSegment(g: Segment)
    ensures ParseSegment(FormatSegment(g)) == Some(g)
  {
    hide ParseSegment, Spell;
    ParseFormatNat(g.level);
    if g.index.None? {
      ParseSpelledRoot(FormatNat(g.level));
    } else {
      ParseFormatNat(g.index.value);
      ParseSpelledChild(FormatNat(g.level), FormatNat(g.index.value));
    }
  }

  // ---- Whole paths -----------------------------------------------------------------------------

  // The root segment has no index and the given level; every other segment has an index.
  predicate Placed(g: Segment, i: nat, rootLevel: nat) {
    if i == 0 then g.level == rootLevel && g.index.None? else g.index.Some?
  }

  // The i-th and later raw segments, parsed.
  function ParseParts(parts: seq<string>, i: nat, rootLevel: nat): Option<seq<Segment>> {
    if parts == [] then Some([])
    else
      match ParseSegment(parts[0])
      case None => None
      case Some(g) =>
        if !Placed(g, i, rootLevel) then None
        else
          match ParseParts(parts[1..], i + 1, rootLevel)
          case None => None
          case Some(rest) => Some([g] + rest)
  }

  // An empty path and an empty segment are errors; the pattern refuses an empty segment as well.
  function ParsePath(path: string, rootLevel: nat): Option<seq<Segment>> {
    if path == [] || "" in Split(path, '/') then None else ParseParts(Split(path, '/'), 0, rootLevel)
  }

  function FormatWorkerPath(level: nat, parent: Option<string>, index: Option<nat>): string {
    var segment := FormatSegment(Segment(level, index));
    if parent.None? then segment else parent.value + "/" + segment
  }

  // The path of a worker reached from the root through these (level, index) children, built the way
  // the owners build theirs: one segment at a time below the parent's path.
  function Build(rootLevel: nat, children: seq<(nat, nat)>): string {
    if children == [] then FormatWorkerPath(rootLevel, None, None)
    else
      var last := children[|children| - 1];
      FormatWorkerPath(last.0, Some(Build(rootLevel, children[..|children| - 1])), Some(last.1))
  }

  function Segments(rootLevel: nat, children: seq<(nat, nat)>): (gs: seq<Segment>)
    ensures |gs| == |children| + 1
  {
    if children == [] then [Segment(rootLevel, None)]
    else
      var last := children[|children| - 1];
      Segments(rootLevel, children[..|children| - 1]) + [Segment(last.0, Some(last.1))]
  }

  lemma SpelledIsPlain(d: string, e: Option<string>)
    requires Digits(d) && (e.Some? ==> Digits(e.value))
    ensures '/' !in Spell(d, e) && Spell(d, e) != [] && Split(Spell(d, e), '/') == [Spell(d, e)]
  {
    assert forall c | c in d :: IsDigit(c);
    if e.Some? { assert forall c | c in e.value :: IsDigit(c); }
    SplitPlain('/', Spell(d, e));
  }

  // Both results, or nothing.
  function Both(x: Option<seq<Segment>>, y: Option<seq<Segment>>): Option<seq<Segment>> {
    if x.Some? && y.Some? then Some(x.value + y.value) else None
  }

  lemma {:induction false} ParsePartsAppend(a: seq<string>, b: seq<string>, i: nat, rootLevel: nat)
    ensures ParseParts(a + b, i, rootLevel) == Both(ParseParts(a, i, rootLevel), ParseParts(b, i + |a|, rootLevel))
  {
    hide ParseSegment, Placed;
    if a == [] {
      assert a + b == b;
      var y := ParseParts(b, i, rootLevel);
      assert y.Some? ==> [] + y.value == y.value;
    } else {
      assert (a + b)[0] == a[0] && (a + b)[1..] == a[1..] + b;
      ParsePartsAppend(a[1..], b, i + 1, rootLevel);
      var g, x, y := ParseSegment(a[0]), ParseParts(a[1..], i + 1, rootLevel), ParseParts(b, i + |a|, rootLevel);
      if g.Some? && x.Some? && y.Some? { assert ([g.value] + x.value) + y.value == [g.value] + (x.value + y.value); }
    }
  }

  lemma OnePart(t: string, g: Segment, i: nat, rootLevel: nat)
    requires ParseSegment(t) == Some(g) && Placed(g, i, rootLevel)
    ensures ParseParts([t], i, rootLevel) == Some([g])
  {
    hide ParseSegment, Placed;
    assert [t][1..] == [] && [g] + [] == [g];
  }

  lemma BadPart(t: string, i: nat, rootLevel: nat)
    requires var g := ParseSegment(t); g.None? || !Placed(g.value, i, rootLevel)
    ensures ParseParts([t], i, rootLevel) == None
  {
  }

  lemma NoParts(rootLevel: nat)
    ensures ParseParts([], 0, rootLevel) == Some([])
  {
  }

  // The parsing loop: the first bad segment ends it.
  method ParseEndpointPath(path: string, rootLevel: nat) returns (r: Option<seq<Segment>>)
    ensures r == ParsePath(path, rootLevel)
  {
    hide ParseSegment, Split, Placed, ParseParts;
    var parts := Split(path, '/');
    if path == [] || "" in parts { return None; }
    var segments: seq<Segment> := [];
    NoParts(rootLevel);
    assert parts[..0] == [];
    for i := 0 to |parts|
      invariant ParseParts(parts[..i], 0, rootLevel) == Some(segments)
    {
      assert parts[..i + 1] == parts[..i] + [parts[i]] && parts == parts[..i + 1] + parts[i + 1..];
      ParsePartsAppend(parts[..i], [parts[i]], 0, rootLevel);
      var g := ParseSegment(parts[i]);
      if g.None? || !Placed(g.value, i, rootLevel) {
        BadPart(parts[i], i, rootLevel);
        ParsePartsAppend(parts[..i + 1], parts[i + 1..], 0, rootLevel);
        return None;
      }
      OnePart(parts[i], g.value, i, rootLevel);
      segments := segments + [g.value];
    }
    assert parts[..|parts|] == parts;
    r := Some(segments);
  }

  lemma OneFormatted(g: Segment, i: nat, rootLevel: nat)
    requires Placed(g, i, rootLevel)
    ensures ParseParts([FormatSegment(g)], i, rootLevel) == Some([g])
    ensures Split(FormatSegment(g), '/') == [FormatSegment(g)] && FormatSegment(g) != []
  {
    hide ParseSegment, Spell, Split;
    ParseFormatSegment(g);
    SpelledIsPlain(FormatNat(g.level), if g.index.Some? then Some(FormatNat(g.index.value)) else None);
    OnePart(FormatSegment(g), g, i, rootLevel);
  }

  lemma {:induction false} BuildParts(rootLevel: nat, children: seq<(nat, nat)>)
    ensures |Split(Build(rootLevel, children), '/')| == |children| + 1 && "" !in Split(Build(rootLevel, children), '/')
    ensures Build(rootLevel, children) != []
    ensures ParseParts(Split(Build(rootLevel, children), '/'), 0, rootLevel) == Some(Segments(rootLevel, children))
  {
    hide ParseParts, Split, FormatSegment;
    if children == [] {
      OneFormatted(Segment(rootLevel, None), 0, rootLevel);
    } else {
      var last := children[|children| - 1];
      var parent := Build(rootLevel, children[..|children| - 1]);
      var g := Segment(last.0, Some(last.1));
      BuildParts(rootLevel, children[..|children| - 1]);
      OneFormatted(g, |children|, rootLevel);
      SplitAtSeparator('/', parent, FormatSegment(g));
      ParsePartsAppend(Split(parent, '/'), [FormatSegment(g)], 0, rootLevel);
    }
  }

  // Parsing a path built by repeated formatting recovers its segments.
  lemma ParseOfBuilt(rootLevel: nat, children: seq<(nat, nat)>)
    ensures ParsePath(Build(rootLevel, children), rootLevel) == Some(Segments(rootLevel, children))
  {
    BuildParts(rootLevel, children);
  }

  // ---- Descent ---------------------------------------------------------------------------------

  // `path.startswith(prefix + "/")`
  predicate Below(path: string, prefix: string) { prefix + "/" <= path }

  // On any two paths the registry accepts, the textual test implies descent in the tree.
  lemma BelowImpliesDescent(a: string, b: string, rootLevel: nat)
    requires ParsePath(a, rootLevel).Some? && ParsePath(b, rootLevel).Some? && Below(b, a)
    ensures StrictPrefix(ParsePath(a, rootLevel).value, ParsePath(b, rootLevel).value)
  {
    var rest := b[|a| + 1..];
    assert b == a + "/" + rest;
    SplitAtSeparator('/', a, rest);
    ParsePartsAppend(Split(a, '/'), Split(rest, '/'), 0, rootLevel);
    ParsePartsLength(Split(rest, '/'), |Split(a, '/')|, rootLevel);
  }

  lemma {:induction false} ParsePartsLength(parts: seq<string>, i: nat, rootLevel: nat)
    ensures ParseParts(parts, i, rootLevel).Some? ==> |ParseParts(parts, i, rootLevel).value| == |parts|
  {
    if parts != [] { ParsePartsLength(parts[1..], i + 1, rootLevel); }
  }

  lemma {:induction false} BuildExtends(rootLevel: nat, xs: seq<(nat, nat)>, ys: seq<(nat, nat)>)
    requires StrictPrefix(xs, ys)
    ensures Below(Build(rootLevel, ys), Build(rootLevel, xs))
    decreases |ys|
  {
    var front := ys[..|ys| - 1];
    assert xs <= front;
    if |xs| < |front| {
      BuildExtends(rootLevel, xs, front);
    } else {
      assert xs == front;
    }
  }

  lemma {:induction false} SegmentsAt(rootLevel: nat, xs: seq<(nat, nat)>, i: nat)
    requires i < |xs|
    ensures Segments(rootLevel, xs)[i + 1] == Segment(xs[i].0, Some(xs[i].1))
  {
    if i < |xs| - 1 { SegmentsAt(rootLevel, xs[..|xs| - 1], i); }
  }

  // On paths built by formatting, the textual test is exactly strict descent.
  lemma BelowIffDescent(rootLevel: nat, xs: seq<(nat, nat)>, ys: seq<(nat, nat)>)
    ensures Below(Build(rootLevel, ys), Build(rootLevel, xs)) <==> StrictPrefix(xs, ys)
    ensures StrictPrefix(xs, ys) <==> StrictPrefix(Segments(rootLevel, xs), Segments(rootLevel, ys))
  {
    var a, b := Build(rootLevel, xs), Build(rootLevel, ys);
    ParseOfBuilt(rootLevel, xs);
    ParseOfBuilt(rootLevel, ys);
    if Below(b, a) { BelowImpliesDescent(a, b, rootLevel); }
    if StrictPrefix(xs, ys) { BuildExtends(rootLevel, xs, ys); BelowImpliesDescent(a, b, rootLevel); }
    if StrictPrefix(Segments(rootLevel, xs), Segments(rootLevel, ys)) {
      forall i | 0 <= i < |xs| ensures xs[i] == ys[i] {
        SegmentsAt(rootLevel, xs, i);
        SegmentsAt(rootLevel, ys, i);
      }
    }
  }

  // On any two accepted paths the textual test is descent of the spelled segments, so it misses a
  // descent in the tree exactly when some common segment is spelled differently.
  lemma BelowIffSpelledDescent(a: string, b: string, rootLevel: nat)
    requires ParsePath(a, rootLevel).Some? && ParsePath(b, rootLevel).Some?
    ensures var descends := StrictPrefix(ParsePath(a, rootLevel).value, ParsePath(b, rootLevel).value);
            var x, y := Split(a, '/'), Split(b, '/');
            && (Below(b, a) <==> StrictPrefix(x, y))
            && (descends && !Below(b, a) <==> descends && exists i | 0 <= i < |x| && i < |y| :: x[i] != y[i])
            && (Below(b, a) <==> descends && forall i | 0 <= i < |x| && i < |y| :: x[i] == y[i])
  {
    hide ParseParts, Split;
    var x, y := Split(a, '/'), Split(b, '/');
    PrefixIffParts('/', a, b);
    ParsePartsLength(x, 0, rootLevel);
    ParsePartsLength(y, 0, rootLevel);
    if Below(b, a) { BelowImpliesDescent(a, b, rootLevel); }
  }

  // In general the textual test is finer than descent: the index of a child may be spelled with a
  // leading zero, which parses to the same segment but is not the same text.
  lemma DescentWithoutPrefix(d: string, e: string, f: string)
    requires Digits(d) && Digits(e) && Digits(f)
    ensures var root, child := Spell(d, None), Spell(f, Some(e));
            var odd := Spell(f, Some("0" + e));
            var a, b := root + "/" + child, root + "/" + odd + "/" + child;
            && ParsePath(a, ParseNat(d)).Some? && ParsePath(b, ParseNat(d)).Some?
            && StrictPrefix(ParsePath(a, ParseNat(d)).value, ParsePath(b, ParseNat(d)).value)
            && !Below(b, a)
  {
    hide ParseSegment, Spell, Split, ParseParts, Below, ParseNat;
    var level := ParseNat(d);
    var root, child, odd := Spell(d, None), Spell(f, Some(e)), Spell(f, Some("0" + e));
    LeadingZero(e);
    ParseSpelledRoot(d);
    ParseSpelledChild(f, e);
    ParseSpelledChild(f, "0" + e);
    SpelledIsPlain(d, None);
    SpelledIsPlain(f, Some(e));
    SpelledIsPlain(f, Some("0" + e));
    var g, h := Segment(level, None), Segment(ParseNat(f), Some(ParseNat(e)));
    OnePart(root, g, 0, level);
    PartsOfPath(root, [root], [g], level);
    NextPart(root, [root], [g], child, h, level);
    NextPart(root, [root], [g], odd, h, level);
    NextPart(root + "/" + odd, [root] + [odd], [g] + [h], child, h, level);
    ZeroDiffers(root, f, e);
    assert [g] + [h] <= ([g] + [h]) + [h];
  }

  lemma PartsOfPath(path: string, parts: seq<string>, gs: seq<Segment>, level: nat)
    requires path != [] && Split(path, '/') == parts && ParseParts(parts, 0, level) == Some(gs) && [] !in parts
    ensures ParsePath(path, level) == Some(gs)
  {
  }

  lemma NextPart(path: string, parts: seq<string>, gs: seq<Segment>, t: string, h: Segment, level: nat)
    requires path != [] && Split(path, '/') == parts && ParseParts(parts, 0, level) == Some(gs) && [] !in parts
    requires ParseSegment(t) == Some(h) && h.index.Some? && Split(t, '/') == [t] && t != []
    ensures Split(path + "/" + t, '/') == parts + [t] && ParseParts(parts + [t], 0, level) == Some(gs + [h])
    ensures [] !in parts + [t] && path + "/" + t != []
    ensures ParsePath(path + "/" + t, level) == Some(gs + [h])
  {
    hide ParseSegment, Split, ParseParts;
    SplitAtSeparator('/', path, t);
    OnePart(t, h, |parts|, level);
    ParsePartsAppend(parts, [t], 0, level);
  }

  lemma {:induction false} LeadingZero(e: string)
    requires Digits(e)
    ensures Digits("0" + e) && ParseNat("0" + e) == ParseNat(e)
  {
    var z := "0" + e;
    assert forall c | c in z :: IsDigit(c);
    assert z[..|z| - 1] == "0" + e[..|e| - 1] && z[|z| - 1] == e[|e| - 1];
    if |e| == 1 {
      assert z[..|z| - 1] == "0" && e[..0] == [];
    } else {
      LeadingZero(e[..|e| - 1]);
    }
  }

  // "...[e]/" against "...[0e]/...": as many digits in the first, so the bracket meets a digit.
  lemma ZeroDiffers(root: string, f: string, e: string)
    requires Digits(e)
    ensures !Below(root + "/" + Spell(f, Some("0" + e)) + "/" + Spell(f, Some(e)), root + "/" + Spell(f, Some(e)))
  {
    var a, b := root + "/" + Spell(f, Some(e)), root + "/" + Spell(f, Some("0" + e)) + "/" + Spell(f, Some(e));
    var k := |root| + 1 + 1 + |f| + 1 + |e|;
    var p := root + "/" + "L" + f + "[";
    assert a + "/" == p + (e + "]/") && b == p + ("0" + e + "]" + "/" + Spell(f, Some(e)));
    assert (a + "/")[k] == (e + "]/")[|e|] == ']';
    assert b[k] == ("0" + e)[|e|] && ("0" + e)[|e|] == e[|e| - 1] && e[|e| - 1] in e;
  }
}
