/** Decimal numbers and split/join on strings, as the Python sources use them. */
module Text {

  // ---- Decimal numbers -------------------------------------------------------------------------

  predicate IsDigit(c: char) { '0' <= c <= '9' }

  predicate AllDigits(s: string) { forall c | c in s :: IsDigit(c) }

  function FormatNat(n: nat): (s: string)
    ensures s != [] && AllDigits(s)
  {
    if n < 10 then [('0' as int + n) as char] else FormatNat(n / 10) + [('0' as int + n % 10) as char]
  }

  function ParseNat(s: string): nat
    requires AllDigits(s)
  {
    if s == [] then 0
    else
      assert IsDigit(s[|s| - 1]);
      ParseNat(s[..|s| - 1]) * 10 + (s[|s| - 1] as int - '0' as int)
  }

  lemma {:induction false} ParseFormatNat(n: nat)
    ensures ParseNat(FormatNat(n)) == n
  {
    if n >= 10 {
      var s := FormatNat(n);
      assert s[..|s| - 1] == FormatNat(n / 10);
      ParseFormatNat(n / 10);
    }
  }

  // ---- Splitting -------------------------------------------------------------------------------

  // `s.split(sep)`
  function Split(s: string, sep: char): (parts: seq<string>)
    ensures |parts| >= 1
  {
    if s == [] then [""]
    else
      var rest := Split(s[1..], sep);
      if s[0] == sep then [""] + rest else [[s[0]] + rest[0]] + rest[1..]
  }

  lemma {:induction false} SplitAtSeparator(sep: char, a: string, b: string)
    ensures Split(a + [sep] + b, sep) == Split(a, sep) + Split(b, sep)
  {
    var s := a + [sep] + b;
    if a == [] {
      assert s[1..] == b;
    } else {
      assert s[1..] == a[1..] + [sep] + b && s[0] == a[0];
      SplitAtSeparator(sep, a[1..], b);
    }
  }

  lemma {:induction false} SplitPlain(sep: char, s: string)
    requires sep !in s
    ensures Split(s, sep) == [s]
  {
    if s != [] {
      assert s[0] != sep && [s[0]] + s[1..] == s;
      SplitPlain(sep, s[1..]);
    }
  }

  predicate StrictPrefix<T(==)>(a: seq<T>, b: seq<T>) { |a| < |b| && a <= b }

  // Starting with a text and a separator is having its parts as a strict prefix.
  lemma {:induction false} PrefixIffParts(sep: char, a: string, b: string)
    ensures a + [sep] <= b <==> StrictPrefix(Split(a, sep), Split(b, sep))
    decreases |a| + |b|
  {
    if a + [sep] <= b {
      var rest := b[|a| + 1..];
      assert b == a + [sep] + rest;
      SplitAtSeparator(sep, a, rest);
    } else if StrictPrefix(Split(a, sep), Split(b, sep)) {
      PartsGivePrefix(sep, a, b);
    }
  }

  lemma {:induction false} PartsGivePrefix(sep: char, a: string, b: string)
    requires StrictPrefix(Split(a, sep), Split(b, sep))
    ensures b != [] && a + [sep] <= b
    decreases |a|
  {
    var x, y := Split(a, sep), Split(b, sep);
    PrefixTail(x, y);
    if a != [] {
      var x', y' := Split(a[1..], sep), Split(b[1..], sep);
      assert a == [a[0]] + a[1..] && b == [b[0]] + b[1..];
      if a[0] == sep {
        assert x == [""] + x' && y == [""] + y';
      } else {
        TailParts(sep, a);
        assert b[0] == a[0];
        TailParts(sep, b);
        assert x' == [x[0][1..]] + x[1..] && y' == [y[0][1..]] + y[1..];
      }
      PartsGivePrefix(sep, a[1..], b[1..]);
    }
  }

  lemma PrefixTail<T>(x: seq<T>, y: seq<T>)
    requires StrictPrefix(x, y) && x != []
    ensures x[0] == y[0] && StrictPrefix(x[1..], y[1..])
  {
    assert forall i | 0 <= i < |x| - 1 :: x[1..][i] == x[i + 1] && y[1..][i] == y[i + 1];
  }

  lemma TailParts(sep: char, s: string)
    requires s != [] && s[0] != sep
    ensures Split(s, sep) == [[s[0]] + Split(s[1..], sep)[0]] + Split(s[1..], sep)[1..]
    ensures Split(s, sep)[0][1..] == Split(s[1..], sep)[0] && Split(s, sep)[1..] == Split(s[1..], sep)[1..]
  {
  }
}
