/** The order Python gives tuples of byte strings: component by component, each component byte by
    byte. It is a total order. */
module RecordOrder {
  import opened Prelude

  // Byte-wise lexicographic order.
  predicate BytesLe(a: Bytes, b: Bytes) {
    a == [] || (b != [] && (a[0] < b[0] || (a[0] == b[0] && BytesLe(a[1..], b[1..]))))
  }

  lemma {:induction false} BytesTotal(a: Bytes, b: Bytes)
    ensures BytesLe(a, b) || BytesLe(b, a)
    ensures BytesLe(a, b) && BytesLe(b, a) ==> a == b
  {
    if a != [] && b != [] {
      BytesTotal(a[1..], b[1..]);
      assert a == [a[0]] + a[1..] && b == [b[0]] + b[1..];
    }
  }

  lemma {:induction false} BytesTransitive(a: Bytes, b: Bytes, c: Bytes)
    requires BytesLe(a, b) && BytesLe(b, c)
    ensures BytesLe(a, c)
  {
    if a != [] && a[0] == b[0] == c[0] { BytesTransitive(a[1..], b[1..], c[1..]); }
  }

  // Tuples compare at the first component where they differ.
  predicate TupleLe(a: seq<Bytes>, b: seq<Bytes>) {
    a == [] || (b != [] && if a[0] == b[0] then TupleLe(a[1..], b[1..]) else BytesLe(a[0], b[0]))
  }

  lemma {:induction false} TupleTotal(a: seq<Bytes>, b: seq<Bytes>)
    ensures TupleLe(a, b) || TupleLe(b, a)
    ensures TupleLe(a, b) && TupleLe(b, a) ==> a == b
  {
    if a != [] && b != [] {
      BytesTotal(a[0], b[0]);
      TupleTotal(a[1..], b[1..]);
      assert a == [a[0]] + a[1..] && b == [b[0]] + b[1..];
    }
  }

  lemma {:induction false} TupleTransitive(a: seq<Bytes>, b: seq<Bytes>, c: seq<Bytes>)
    requires TupleLe(a, b) && TupleLe(b, c)
    ensures TupleLe(a, c)
  {
    if a != [] {
      if a[0] == b[0] == c[0] {
        TupleTransitive(a[1..], b[1..], c[1..]);
      } else {
        BytesTransitive(a[0], b[0], c[0]) by {
          BytesTotal(a[0], a[0]);
          BytesTotal(b[0], b[0]);
          BytesTotal(c[0], c[0]);
        }
        BytesTotal(a[0], b[0]);
      }
    }
  }
}
