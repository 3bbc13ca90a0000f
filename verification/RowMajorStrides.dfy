/** Filling in a tensor view: the contiguous strides a shape implies, when they are representable, and
    why they address every element exactly once. */
module RowMajorStrides {
  import opened Prelude

  const MAX_TENSOR_DIMS: nat := 5

  datatype Failure = BadRank | NotUint32 | StrideOverflow | LengthMismatch

  function Product(s: seq<nat>): nat { if s == [] then 1 else s[0] * Product(s[1..]) }

  // The contiguous strides: each the product of the extents after it.
  function RowMajor(shape: seq<nat>): seq<nat> { seq(|shape|, i requires 0 <= i < |shape| => Product(shape[i + 1..])) }

  predicate IsUint32(n: int) { 0 <= n <= UINT32_MAX }

  predicate AllUint32(s: seq<int>) { forall i | 0 <= i < |s| :: IsUint32(s[i]) }

  // The representable shapes: every product of a proper suffix is a uint32.
  predicate Representable(shape: seq<nat>) { forall i | 0 < i < |shape| :: Product(shape[i..]) <= UINT32_MAX }

  function Naturals(s: seq<int>): (r: seq<nat>)
    requires AllUint32(s)
    ensures |r| == |s| && forall i | 0 <= i < |s| :: r[i] == s[i]
  {
    seq(|s|, i requires 0 <= i < |s| => s[i])
  }

  // Why a view cannot be filled in, decided on the arguments alone.
  function FillError(shapes: seq<int>, strides: Option<seq<int>>): (e: Option<Failure>)
    ensures e.None? ==> AllUint32(shapes) && (strides.Some? ==> AllUint32(strides.value))
  {
    if !(1 <= |shapes| <= MAX_TENSOR_DIMS) then Some(BadRank)
    else if !AllUint32(shapes) then Some(NotUint32)
    else if strides.None? then if Representable(Naturals(shapes)) then None else Some(StrideOverflow)
    else if |strides.value| != |shapes| then Some(LengthMismatch)
    else if !AllUint32(strides.value) then Some(NotUint32)
    else None
  }

  // ---- The view --------------------------------------------------------------------------------

  class Tensor {
    var ndims: nat
    const shapes: array<nat>
    const strides: array<nat>

    ghost predicate Valid()
    {
      shapes.Length == MAX_TENSOR_DIMS && strides.Length == MAX_TENSOR_DIMS && shapes != strides
    }

    constructor ()
      ensures Valid() && fresh(shapes) && fresh(strides)
    {
      ndims := 0;
      shapes := new nat[MAX_TENSOR_DIMS](_ => 0);
      strides := new nat[MAX_TENSOR_DIMS](_ => 0);
    }

    // Copy a sequence of numbers into a field array, each cast to uint32.
    method CastInto(a: array<nat>, s: seq<int>) returns (ok: bool)
      requires |s| <= a.Length
      modifies a
      ensures ok <==> AllUint32(s)
      ensures ok ==> a[..|s|] == Naturals(s)
    {
      for i := 0 to |s|
        invariant forall j | 0 <= j < i :: IsUint32(s[j]) && a[j] == s[j]
      {
        if !IsUint32(s[i]) { return false; }
        a[i] := s[i];
      }
      ok := true;
      assert a[..|s|] == Naturals(s);
    }

    // Contiguous strides from the right. The accumulator is a uint64; it is written with its wrap,
    // which never happens.
    method Contiguous() returns (ok: bool)
      requires Valid() && 1 <= ndims <= MAX_TENSOR_DIMS && forall i | 0 <= i < ndims :: shapes[i] <= UINT32_MAX
      modifies strides
      ensures ok <==> Representable(shapes[..ndims])
      ensures ok ==> strides[..ndims] == RowMajor(shapes[..ndims])
    {
      hide Product, Representable, RowMajor, Wrapped;
      ghost var shape := shapes[..ndims];
      var acc: nat := 1;
      var i := ndims;
      EmptyProduct(shape);
      while i > 0
        invariant 0 <= i <= ndims && shapes[..ndims] == shape
        invariant acc == Product(shape[i..])
        invariant i == 0 || acc <= UINT32_MAX
        invariant forall j | i <= j < ndims :: strides[j] == Product(shape[j + 1..])
        invariant forall j | i <= j < ndims && j > 0 :: Product(shape[j..]) <= UINT32_MAX
      {
        i := i - 1;
        NextProduct(shape, i, acc, shapes[i]);
        strides[i] := Wrapped(acc, UINT32_MAX);
        acc := Wrapped(acc * shapes[i], UINT64_MAX);
        if i > 0 && acc > UINT32_MAX {
          Overflow(shape, i);
          return false;
        }
      }
      Finished(shape, strides[..ndims]);
      ok := true;
    }

    // Shapes first, then the strides given or the contiguous ones.
    method FillView(newShapes: seq<int>, newStrides: Option<seq<int>>) returns (e: Option<Failure>)
      requires Valid()
      modifies this, shapes, strides
      ensures e == FillError(newShapes, newStrides)
      ensures e.None? ==>
                && ndims == |newShapes| && shapes[..ndims] == Naturals(newShapes)
                && strides[..ndims] == match newStrides
                                       case None => RowMajor(Naturals(newShapes))
                                       case Some(s) => Naturals(s)
    {
      hide Representable, RowMajor;
      if |newShapes| == 0 || |newShapes| > MAX_TENSOR_DIMS { return Some(BadRank); }
      ndims := |newShapes|;
      var cast := CastInto(shapes, newShapes);
      if !cast { return Some(NotUint32); }
      if newStrides.None? {
        assert forall i | 0 <= i < ndims :: shapes[i] == shapes[..ndims][i];
        var ok := Contiguous();
        return if ok then None else Some(StrideOverflow);
      }
      if |newStrides.value| != |newShapes| { return Some(LengthMismatch); }
      var given := CastInto(strides, newStrides.value);
      return if given then None else Some(NotUint32);
    }
  }

  // A value stored in an unsigned field whose largest value is `max`.
  function Wrapped(n: nat, max: nat): nat { n % (max + 1) }

  lemma NoWrap(n: nat, max: nat)
    requires n <= max
    ensures Wrapped(n, max) == n
  {
  }

  lemma MulMono(a: nat, b: nat, d: nat)
    requires a <= b
    ensures a * d <= b * d
  {
  }

  lemma EmptyProduct(shape: seq<nat>)
    ensures Product(shape[|shape|..]) == 1
  {
  }

  // The next suffix product fits a uint64, so the accumulator holds it exactly.
  lemma NextProduct(shape: seq<nat>, i: nat, acc: nat, extent: nat)
    requires i < |shape| && extent == shape[i] <= UINT32_MAX && acc == Product(shape[i + 1..]) <= UINT32_MAX
    ensures Wrapped(acc, UINT32_MAX) == acc
    ensures Wrapped(acc * extent, UINT64_MAX) == Product(shape[i..])
  {
    assert shape[i..] == [shape[i]] + shape[i + 1..];
    assert Product(shape[i..]) == extent * acc;
    NoWrap(acc, UINT32_MAX);
    MulMono(acc, UINT32_MAX, extent);
    MulMono(extent, UINT32_MAX, UINT32_MAX);
    NoWrap(acc * extent, UINT64_MAX);
  }

  lemma Overflow(shape: seq<nat>, i: nat)
    requires 0 < i < |shape| && Product(shape[i..]) > UINT32_MAX
    ensures !Representable(shape)
  {
  }

  lemma Finished(shape: seq<nat>, strides: seq<nat>)
    requires |strides| == |shape| && forall j | 0 <= j < |shape| :: strides[j] == Product(shape[j + 1..])
    requires forall j | 0 < j < |shape| :: Product(shape[j..]) <= UINT32_MAX
    ensures Representable(shape) && strides == RowMajor(shape)
  {
  }

  // ---- Addressing ------------------------------------------------------------------------------

  // An element index inside the shape.
  predicate InBox(shape: seq<nat>, index: seq<nat>) {
    |index| == |shape| && forall i | 0 <= i < |shape| :: index[i] < shape[i]
  }

  // The element offset a view computes.
  function Offset(strides: seq<nat>, index: seq<nat>): nat
    requires |strides| == |index|
  {
    if strides == [] then 0 else index[0] * strides[0] + Offset(strides[1..], index[1..])
  }

  // The index of an offset.
  function IndexOf(shape: seq<nat>, offset: nat): (r: seq<nat>)
    requires forall i | 0 <= i < |shape| :: shape[i] > 0
    ensures |r| == |shape|
  {
    if shape == [] then []
    else
      PositiveProduct(shape[1..]);
      [offset / Product(shape[1..])] + IndexOf(shape[1..], offset % Product(shape[1..]))
  }

  lemma {:induction false} PositiveProduct(shape: seq<nat>)
    requires forall i | 0 <= i < |shape| :: shape[i] > 0
    ensures Product(shape) > 0
  {
    if shape != [] { PositiveProduct(shape[1..]); }
  }

  lemma TailStrides(shape: seq<nat>)
    requires shape != []
    ensures RowMajor(shape)[0] == Product(shape[1..]) && RowMajor(shape)[1..] == RowMajor(shape[1..])
  {
    forall i | 0 <= i < |shape| - 1 ensures RowMajor(shape)[1..][i] == RowMajor(shape[1..])[i] {
      assert shape[i + 2..] == shape[1..][i + 1..];
    }
  }

  lemma OffsetStep(shape: seq<nat>, index: seq<nat>)
    requires |index| == |shape| > 0
    ensures |RowMajor(shape)| == |shape|
    ensures Offset(RowMajor(shape), index) == index[0] * Product(shape[1..]) + Offset(RowMajor(shape[1..]), index[1..])
  {
    TailStrides(shape);
  }

  lemma DivideBack(q: nat, d: nat, r: nat)
    requires r < d
    ensures (q * d + r) / d == q && (q * d + r) % d == r
  {
    var n := q * d + r;
    var k := n / d;
    assert n == k * d + n % d;
    if q > k { MulMono(k + 1, q, d); }
    if q < k { MulMono(q + 1, k, d); }
  }

  lemma Split(n: nat, s: nat, d: nat)
    requires n < s * d
    ensures d > 0 && n / d < s && n / d * d + n % d == n
  {
    if n / d >= s { MulMono(s, n / d, d); }
  }

  lemma Below(q: nat, s: nat, d: nat, r: nat)
    requires q < s && r < d
    ensures q * d + r < s * d
  {
    assert (q + 1) * d <= s * d;
  }

  // Every index of the shape has an offset below the element count, and is recovered from it.
  lemma {:induction false} OffsetThenIndex(shape: seq<nat>, index: seq<nat>)
    requires InBox(shape, index)
    ensures Offset(RowMajor(shape), index) < Product(shape)
    ensures IndexOf(shape, Offset(RowMajor(shape), index)) == index
  {
    if shape != [] {
      var rest, tail := shape[1..], index[1..];
      OffsetThenIndex(rest, tail);
      TailStrides(shape);
      var low := Offset(RowMajor(rest), tail);
      DivideBack(index[0], Product(rest), low);
      Below(index[0], shape[0], Product(rest), low);
      assert index == [index[0]] + tail;
    }
  }

  // Every offset below the element count belongs to an index of the shape.
  lemma {:induction false} IndexThenOffset(shape: seq<nat>, offset: nat)
    requires (forall i | 0 <= i < |shape| :: shape[i] > 0) && offset < Product(shape)
    ensures InBox(shape, IndexOf(shape, offset))
    ensures Offset(RowMajor(shape), IndexOf(shape, offset)) == offset
  {
    if shape != [] {
      var rest := shape[1..];
      var d := Product(rest);
      Split(offset, shape[0], d);
      IndexThenOffset(rest, offset % d);
      var index := IndexOf(shape, offset);
      OffsetStep(shape, index);
      assert index[0] == offset / d && index[1..] == IndexOf(rest, offset % d);
      assert forall i | 1 <= i < |shape| :: index[i] == index[1..][i - 1] && shape[i] == rest[i - 1];
    }
  }

  // The offset of an index under contiguous strides.
  function Flat(shape: seq<nat>, index: seq<nat>): nat
    requires InBox(shape, index)
  {
    Offset(RowMajor(shape), index)
  }

  ghost predicate Addressed(shape: seq<nat>, offset: nat) { exists a :: InBox(shape, a) && Flat(shape, a) == offset }

  // On a shape without zero extents, contiguous addressing is a bijection between the indices and
  // the offsets 0 .. numel - 1.
  lemma ContiguousIsBijective(shape: seq<nat>)
    requires forall i | 0 <= i < |shape| :: shape[i] > 0
    ensures forall a, b | InBox(shape, a) && InBox(shape, b) :: Flat(shape, a) == Flat(shape, b) ==> a == b
    ensures forall o: nat :: Addressed(shape, o) <==> o < Product(shape)
  {
    hide RowMajor, Offset, IndexOf, InBox, Product;
    forall a, b | InBox(shape, a) && InBox(shape, b) && Flat(shape, a) == Flat(shape, b) ensures a == b {
      OffsetThenIndex(shape, a);
      OffsetThenIndex(shape, b);
    }
    forall o: nat | o < Product(shape) ensures Addressed(shape, o) {
      IndexThenOffset(shape, o);
      assert Flat(shape, IndexOf(shape, o)) == o;
    }
    forall o: nat | Addressed(shape, o) ensures o < Product(shape) {
      var a :| InBox(shape, a) && Flat(shape, a) == o;
      OffsetThenIndex(shape, a);
    }
  }
}
