/** Strong types built from CRTP mixins: `StrongType<T, Tag, Skills...>` wraps one value of
    type `T`; each skill (`Addable`, `Subtractable`, `Printable`, `Swappable`) adds operators,
    and distinct tags make `Meter`, `Kilometer` and `Surname` distinct types. */
module StrongTypes {
  /** `long` on the 64-bit targets the example is written for; signed overflow is undefined
      behaviour, so every result must be representable. */
  const LongMin: int := -0x8000_0000_0000_0000
  const LongMax: int := 0x7fff_ffff_ffff_ffff

  predicate IsLong(v: int)
  {
    LongMin <= v <= LongMax
  }

  /** The mixins; `IntegralArithmetic` is `Addable` together with `Subtractable`. */
  datatype Skill = Addable | Subtractable | Printable | Swappable

  const IntegralArithmetic: set<Skill> := {Addable, Subtractable}

  /** The tag types of the three aliases. */
  datatype Tag = MeterTag | KilometerTag | SurnameTag

  /** The skills each alias is declared with. */
  function Skills(tag: Tag): set<Skill>
  {
    match tag
    case MeterTag => IntegralArithmetic + {Printable, Swappable}
    case KilometerTag => IntegralArithmetic + {Printable, Swappable}
    case SurnameTag => {Printable, Swappable}
  }

  /** `Surname` gets printing and swapping but no arithmetic; the distances get all four. */
  lemma SurnameHasNoArithmetic()
    ensures Addable !in Skills(SurnameTag) && Subtractable !in Skills(SurnameTag)
    ensures Skills(SurnameTag) == {Printable, Swappable}
    ensures Skills(MeterTag) == Skills(KilometerTag) == {Addable, Subtractable, Printable, Swappable}
  {
  }

  /** `StrongType<T, Tag, Skills...>`. Two objects have the same C++ type only if their tags
      agree. */
  class StrongType<T> {
    const tag: Tag
    var value: T

    /** `explicit StrongType(T const& value)`. */
    constructor(tag: Tag, value: T)
      ensures this.tag == tag && this.value == value
    {
      this.tag, this.value := tag, value;
    }

    /** `get() const`. */
    function Get(): T
      reads this
    {
      value
    }

    /** `swap(other)`: exchanges the two wrapped values. */
    method Swap(other: StrongType<T>)
      requires other.tag == tag
      modifies this, other
      ensures value == old(other.value) && other.value == old(value)
    {
      value, other.value := other.value, value;
    }
  }

  /** The free `swap(a, b)` declared next to `StrongType`: `a.swap(b)`. */
  method SwapStrong<T>(a: StrongType<T>, b: StrongType<T>)
    requires a.tag == b.tag
    modifies a, b
    ensures a.value == old(b.value) && b.value == old(a.value)
  {
    a.Swap(b);
  }

  /** The `swap` friend of the `Swappable` mixin: swaps the values returned by `get()`. */
  method SwappableSwap<T>(lhs: StrongType<T>, rhs: StrongType<T>)
    requires lhs.tag == rhs.tag && Swappable in Skills(lhs.tag)
    modifies lhs, rhs
    ensures lhs.value == old(rhs.value) && rhs.value == old(lhs.value)
  {
    lhs.value, rhs.value := rhs.value, lhs.value;
  }

  /** `operator+` of `Addable`: a new object wrapping the sum; both operands are unchanged. */
  method Plus(lhs: StrongType<int>, rhs: StrongType<int>) returns (r: StrongType<int>)
    requires lhs.tag == rhs.tag && Addable in Skills(lhs.tag) && IsLong(lhs.value + rhs.value)
    ensures fresh(r) && r.tag == lhs.tag && r.value == lhs.value + rhs.value
  {
    r := new StrongType(lhs.tag, lhs.Get() + rhs.Get());
  }

  /** `operator-` of `Subtractable`: a new object wrapping the difference. */
  method Minus(lhs: StrongType<int>, rhs: StrongType<int>) returns (r: StrongType<int>)
    requires lhs.tag == rhs.tag && Subtractable in Skills(lhs.tag) && IsLong(lhs.value - rhs.value)
    ensures fresh(r) && r.tag == lhs.tag && r.value == lhs.value - rhs.value
  {
    r := new StrongType(lhs.tag, lhs.Get() - rhs.Get());
  }

  /** `operator+=` of `Addable`: adds in place and returns `lhs`; only `lhs` changes. */
  method PlusAssign(lhs: StrongType<int>, rhs: StrongType<int>) returns (r: StrongType<int>)
    requires lhs.tag == rhs.tag && Addable in Skills(lhs.tag) && IsLong(lhs.value + rhs.value)
    modifies lhs
    ensures r == lhs && lhs.value == old(lhs.value) + old(rhs.value)
  {
    lhs.value := lhs.value + rhs.value;
    r := lhs;
  }

  /** `operator-=` of `Subtractable`: subtracts in place and returns `lhs`. */
  method MinusAssign(lhs: StrongType<int>, rhs: StrongType<int>) returns (r: StrongType<int>)
    requires lhs.tag == rhs.tag && Subtractable in Skills(lhs.tag) && IsLong(lhs.value - rhs.value)
    modifies lhs
    ensures r == lhs && lhs.value == old(lhs.value) - old(rhs.value)
  {
    lhs.value := lhs.value - rhs.value;
    r := lhs;
  }

  /** The usage example: `Meter<long>{100} + Meter<long>{50}` holds 150. */
  method UsageExample() returns (m3: int)
    ensures m3 == 150
  {
    var m1 := new StrongType(MeterTag, 100);
    var m2 := new StrongType(MeterTag, 50);
    var sum := Plus(m1, m2);
    m3 := sum.Get();
  }

  /** Adding and then subtracting the same distance in place gives back the starting value,
      and swapping two surnames exchanges them. */
  method RoundTrips(start: int, delta: int, first: string, second: string)
    returns (distance: int, surnames: (string, string))
    requires IsLong(start) && IsLong(delta) && IsLong(start + delta)
    ensures distance == start && surnames == (second, first)
  {
    var d := new StrongType(KilometerTag, start);
    var step := new StrongType(KilometerTag, delta);
    var r := PlusAssign(d, step);
    r := MinusAssign(d, step);
    distance := d.Get();
    var a := new StrongType(SurnameTag, first);
    var b := new StrongType(SurnameTag, second);
    SwappableSwap(a, b);
    surnames := (a.Get(), b.Get());
  }
}
