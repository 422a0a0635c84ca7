/** Object layout as the compiler computes it for the examples' structs: members are placed in
    declaration order, each at the next offset that is a multiple of its alignment; the struct's
    alignment is the largest member alignment and its size is rounded up to a multiple of it.
    This is what `sizeof` and `alignof` in the handles' `static_assert`s evaluate. */
module Layout {
  /** `sizeof(void*)` and `alignof(void*)` on the 64-bit targets the examples are written for. */
  const PointerSize: nat := 8

  datatype TypeLayout = TypeLayout(size: nat, align: nat)

  const PointerLayout := TypeLayout(PointerSize, PointerSize)
  const DoubleLayout := TypeLayout(8, 8)

  predicate Aligned(fields: seq<TypeLayout>)
  {
    forall i :: 0 <= i < |fields| ==> fields[i].align > 0
  }

  /** The smallest multiple of `a` that is at least `n`. */
  function RoundUp(n: nat, a: nat): (r: nat)
    requires a > 0
    ensures r % a == 0 && n <= r < n + a
  {
    var q := n / a;
    assert n == a * q + n % a;
    if n % a == 0 then n
    else
      MultipleMod(a, q + 1);
      a * (q + 1)
  }

  lemma MultipleMod(a: nat, k: nat)
    requires a > 0
    ensures (a * k) % a == 0
  {
    var q, r := (a * k) / a, (a * k) % a;
    assert a * k == a * q + r;
    if k > q {
      assert a * (k - q) == a * k - a * q;
      AtLeastOnce(a, k - q);
    } else if k < q {
      assert a * (q - k) == a * q - a * k;
      AtLeastOnce(a, q - k);
    }
  }

  lemma {:induction false} AtLeastOnce(a: nat, d: nat)
    requires d >= 1
    ensures a * d >= a
  {
    if d > 1 {
      AtLeastOnce(a, d - 1);
      assert a * d == a * (d - 1) + a;
    }
  }

  /** The offset just past the last member. */
  function EndOffset(fields: seq<TypeLayout>): nat
    requires Aligned(fields)
  {
    if fields == [] then 0
    else
      var last := fields[|fields| - 1];
      RoundUp(EndOffset(fields[..|fields| - 1]), last.align) + last.size
  }

  function MaxAlign(fields: seq<TypeLayout>): nat
  {
    if fields == [] then 1
    else
      var a := MaxAlign(fields[..|fields| - 1]);
      var b := fields[|fields| - 1].align;
      if a < b then b else a
  }

  function Sum(fields: seq<TypeLayout>): nat
  {
    if fields == [] then 0 else Sum(fields[..|fields| - 1]) + fields[|fields| - 1].size
  }

  function StructLayout(fields: seq<TypeLayout>): TypeLayout
    requires Aligned(fields)
  {
    var a := MaxAlign(fields);
    MaxAlignPositive(fields);
    TypeLayout(RoundUp(EndOffset(fields), a), a)
  }

  lemma {:induction false} MaxAlignPositive(fields: seq<TypeLayout>)
    ensures MaxAlign(fields) > 0
  {
    if fields != [] {
      MaxAlignPositive(fields[..|fields| - 1]);
    }
  }

  /** Every member fits: the struct is at least as large as its members together, at least as
      aligned as each of them, and its size is a multiple of its alignment. */
  lemma {:induction false} StructLayoutBounds(fields: seq<TypeLayout>)
    requires Aligned(fields)
    ensures StructLayout(fields).size >= Sum(fields)
    ensures forall i :: 0 <= i < |fields| ==> fields[i].align <= StructLayout(fields).align
    ensures StructLayout(fields).size % StructLayout(fields).align == 0
  {
    EndOffsetAtLeastSum(fields);
    MaxAlignBounds(fields);
  }

  lemma {:induction false} EndOffsetAtLeastSum(fields: seq<TypeLayout>)
    requires Aligned(fields)
    ensures EndOffset(fields) >= Sum(fields)
  {
    if fields != [] {
      EndOffsetAtLeastSum(fields[..|fields| - 1]);
    }
  }

  lemma {:induction false} MaxAlignBounds(fields: seq<TypeLayout>)
    ensures forall i :: 0 <= i < |fields| ==> fields[i].align <= MaxAlign(fields)
  {
    if fields != [] {
      var init := fields[..|fields| - 1];
      MaxAlignBounds(init);
      forall i | 0 <= i < |fields|
        ensures fields[i].align <= MaxAlign(fields)
      {
        if i < |fields| - 1 {
          assert fields[i] == init[i];
        }
      }
    }
  }

  /** The fit test of the small-buffer handle's two `static_assert`s. */
  predicate Fits(l: TypeLayout, capacity: nat, alignment: nat)
  {
    l.size <= capacity && l.align <= alignment
  }

  /** `NonOwningShapeModel<ShapeT, DrawStrategy>`: a vptr and two pointers, whatever the types. */
  function NonOwningModelLayout(): TypeLayout
  {
    StructLayout([PointerLayout, PointerLayout, PointerLayout])
  }

  /** The reference handle's two `static_assert`s hold for every instantiation: the model is
      exactly three pointers large and pointer-aligned. */
  lemma NonOwningModelIsThreePointers()
    ensures NonOwningModelLayout() == TypeLayout(3 * PointerSize, PointerSize)
  {
    var p := PointerLayout;
    assert EndOffset([p]) == 8 by { assert [p][..0] == []; }
    assert EndOffset([p, p]) == 16 by { assert [p, p][..1] == [p]; }
    assert EndOffset([p, p, p]) == 24 by { assert [p, p, p][..2] == [p, p]; }
    assert MaxAlign([p]) == 8 by { assert [p][..0] == []; }
    assert MaxAlign([p, p]) == 8 by { assert [p, p][..1] == [p]; }
    assert MaxAlign([p, p, p]) == 8 by { assert [p, p, p][..2] == [p, p]; }
  }
}
