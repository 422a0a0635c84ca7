/** The owning `Shape<Capacity, Alignment>` handle with small-buffer optimisation: the model is
    placement-constructed into the handle's own `buffer_` of `Capacity` bytes, so no heap memory
    is used. The buffer is modelled as one slot that holds exactly one live model between the
    handle's construction and its destruction. */
module SmallBufferOptimization {
  import opened Shapes
  import opened Layout
  import opened Lifetime

  /** The template's default arguments: 32 bytes, aligned like a pointer. */
  const DefaultCapacity: nat := 32
  const DefaultAlignment: nat := PointerSize

  /** `OwningModel<ShapeT, DrawStrategy>` as it sits in a buffer. `movedFrom` marks a model
      whose shape and drawer were moved out: it may only be destroyed. */
  datatype OwningModel = OwningModel(id: nat, shape: ShapeValue, drawer: DrawStrategy, movedFrom: bool)

  /** `sizeof(Model)` and `alignof(Model)` for the model of a pair. */
  function ModelLayout(shape: ShapeValue, drawer: DrawStrategy): TypeLayout
    requires drawer.kind.layout.align > 0
  {
    OwningModelLayoutOf(ModelTypeOf(shape, drawer))
  }

  /** The compile-time test of the constructor's two `static_assert`s. */
  predicate Admissible(shape: ShapeValue, drawer: DrawStrategy, capacity: nat, alignment: nat)
  {
    drawer.kind.layout.align > 0 && Fits(ModelLayout(shape, drawer), capacity, alignment)
  }

  /** `OwningModel::clone(memory)`: copy-constructs the model into another buffer. */
  method CloneInto(m: OwningModel, mem: Ledger) returns (placed: OwningModel)
    requires mem.Valid()
    modifies mem
    ensures placed == m.(id := placed.id) && placed.id !in old(mem.alive)
    ensures mem.Valid() && mem.alive == old(mem.alive) + {placed.id}
    ensures mem.heapAllocations == old(mem.heapAllocations)
  {
    var id := mem.Construct(false);
    placed := m.(id := id);
  }

  /** `OwningModel::move(memory)`: move-constructs the model into another buffer; the source model
      stays alive in its moved-from state. */
  method MoveInto(m: OwningModel, mem: Ledger) returns (placed: OwningModel, source: OwningModel)
    requires mem.Valid()
    modifies mem
    ensures placed == m.(id := placed.id) && placed.id !in old(mem.alive)
    ensures source == m.(movedFrom := true)
    ensures mem.Valid() && mem.alive == old(mem.alive) + {placed.id}
    ensures mem.heapAllocations == old(mem.heapAllocations)
  {
    var id := mem.Construct(false);
    placed := m.(id := id);
    source := m.(movedFrom := true);
  }

  class Shape {
    /** The template arguments `Capacity` and `Alignment`. */
    const capacity: nat
    const alignment: nat
    /** `buffer_`: the one model placed in it. */
    var buffer: OwningModel

    /** The buffer holds a live model that fits it. */
    ghost predicate Valid(mem: Ledger)
      reads this, mem
    {
      buffer.id in mem.alive && Admissible(buffer.shape, buffer.drawer, capacity, alignment)
    }

    /** `Shape(ShapeT, DrawStrategy)`: only an admissible pair can be stored (otherwise the
        program does not compile); the model is constructed in the buffer, not on the heap. */
    constructor(shape: ShapeValue, drawer: DrawStrategy, mem: Ledger,
                capacity: nat := DefaultCapacity, alignment: nat := DefaultAlignment)
      requires Admissible(shape, drawer, capacity, alignment) && mem.Valid()
      modifies mem
      ensures Valid(mem) && mem.Valid() && this.capacity == capacity && this.alignment == alignment
      ensures buffer == OwningModel(buffer.id, shape, drawer, false)
      ensures buffer.id !in old(mem.alive) && mem.alive == old(mem.alive) + {buffer.id}
      ensures mem.heapAllocations == old(mem.heapAllocations)
    {
      this.capacity, this.alignment := capacity, alignment;
      var id := mem.Construct(false);
      buffer := OwningModel(id, shape, drawer, false);
    }

    /** `Shape(Shape const&)`: the source model clones itself into this buffer. */
    constructor Copy(other: Shape, mem: Ledger)
      requires other.Valid(mem) && mem.Valid()
      modifies mem
      ensures Valid(mem) && mem.Valid() && capacity == other.capacity && alignment == other.alignment
      ensures buffer == other.buffer.(id := buffer.id) && buffer.id != other.buffer.id
      ensures buffer.id !in old(mem.alive) && mem.alive == old(mem.alive) + {buffer.id}
      ensures mem.heapAllocations == old(mem.heapAllocations)
    {
      capacity, alignment := other.capacity, other.alignment;
      var placed := CloneInto(other.buffer, mem);
      buffer := placed;
    }

    /** `Shape(Shape&&)`: the source model moves itself into this buffer; the source keeps a live,
        moved-from model that its own destructor will destroy. */
    constructor Move(other: Shape, mem: Ledger)
      requires other.Valid(mem) && mem.Valid()
      modifies other, mem
      ensures Valid(mem) && other.Valid(mem) && mem.Valid()
      ensures capacity == other.capacity && alignment == other.alignment
      ensures buffer == old(other.buffer).(id := buffer.id) && buffer.id !in old(mem.alive)
      ensures other.buffer == old(other.buffer).(movedFrom := true)
      ensures mem.alive == old(mem.alive) + {buffer.id}
      ensures mem.heapAllocations == old(mem.heapAllocations)
    {
      capacity, alignment := other.capacity, other.alignment;
      var placed, source := MoveInto(other.buffer, mem);
      buffer := placed;
      new;
      other.buffer := source;
    }

    /** Copy assignment: a temporary copy of `other`, then the two buffers are swapped, so the
        model this handle held is destroyed exactly once, by the temporary's destructor. */
    method Assign(other: Shape, mem: Ledger)
      requires Valid(mem) && other.Valid(mem) && mem.Valid()
      requires capacity == other.capacity && alignment == other.alignment
      modifies this, mem
      ensures Valid(mem) && mem.Valid()
      ensures buffer == old(other.buffer).(id := buffer.id) && buffer.id !in old(mem.alive)
      ensures mem.alive == old(mem.alive) - {old(buffer.id)} + {buffer.id}
      ensures mem.heapAllocations == old(mem.heapAllocations)
      ensures other != this ==> other.buffer == old(other.buffer)
    {
      var copy := new Shape.Copy(other, mem);
      buffer, copy.buffer := copy.buffer, buffer;
      copy.Destroy(mem);
    }

    /** Move assignment: a temporary move-constructed from `other` (which is left moved-from),
        then the buffers are swapped and the temporary destroys this handle's previous model. */
    method MoveAssign(other: Shape, mem: Ledger)
      requires Valid(mem) && other.Valid(mem) && mem.Valid()
      requires capacity == other.capacity && alignment == other.alignment
      modifies this, other, mem
      ensures Valid(mem) && mem.Valid()
      ensures buffer == old(other.buffer).(id := buffer.id) && buffer.id !in old(mem.alive)
      ensures other != this ==> other.buffer == old(other.buffer).(movedFrom := true)
      ensures mem.alive == old(mem.alive) - {old(buffer.id)} + {buffer.id}
      ensures mem.heapAllocations == old(mem.heapAllocations)
    {
      var copy := new Shape.Move(other, mem);
      buffer, copy.buffer := copy.buffer, buffer;
      copy.Destroy(mem);
    }

    /** `~Shape()`: destroys the one model in the buffer. */
    method Destroy(mem: Ledger)
      requires buffer.id in mem.alive && mem.Valid()
      modifies mem
      ensures mem.Valid() && mem.alive == old(mem.alive) - {buffer.id}
      ensures mem.heapAllocations == old(mem.heapAllocations)
    {
      mem.Destroy(buffer.id);
    }

    /** `draw(Shape const&)`: the buffered model applies its drawer to its shape. A moved-from
        handle must not be drawn. */
    method Draw(mem: Ledger, canvas: Canvas)
      requires Valid(mem) && !buffer.movedFrom
      modifies canvas
      ensures canvas.calls == old(canvas.calls) + [DrawCall(buffer.drawer, buffer.shape)]
    {
      canvas.calls := canvas.calls + [DrawCall(buffer.drawer, buffer.shape)];
    }
  }

  /** A circle with a captureless drawer: the model is a vptr, a `double` and an empty closure,
      24 bytes aligned to 8, which fits the default buffer. */
  lemma {:induction false} CircleModelFitsDefaultBuffer(radius: real, id: nat)
    ensures ModelLayout(Circle(radius), CapturelessDrawer(id)) == TypeLayout(24, 8)
    ensures Admissible(Circle(radius), CapturelessDrawer(id), DefaultCapacity, DefaultAlignment)
  {
    var p, d, c := PointerLayout, DoubleLayout, TypeLayout(1, 1);
    assert EndOffset([p]) == 8 && MaxAlign([p]) == 8 by { assert [p][..0] == []; }
    assert EndOffset([p, d]) == 16 && MaxAlign([p, d]) == 8 by { assert [p, d][..1] == [p]; }
    assert EndOffset([p, d, c]) == 17 && MaxAlign([p, d, c]) == 8 by { assert [p, d, c][..2] == [p, d]; }
  }

  /** A model larger than the buffer is refused: no pair whose model exceeds the capacity can
      be constructed. */
  lemma OversizedModelIsRefused(shape: ShapeValue, drawer: DrawStrategy, capacity: nat, alignment: nat)
    requires drawer.kind.layout.align > 0 && ModelLayout(shape, drawer).size > capacity
    ensures !Admissible(shape, drawer, capacity, alignment)
  {
  }

  /** The usage example with the default buffer: draw, copy, draw the copy, destroy both. Both
      draws are the same, no heap memory is allocated, and no model is left alive. */
  method DrawOriginalAndCopy(radius: real, drawerId: nat)
    returns (calls: seq<DrawCall>, allocations: nat, leaked: set<nat>)
    ensures calls == [DrawCall(CapturelessDrawer(drawerId), Circle(radius)),
                      DrawCall(CapturelessDrawer(drawerId), Circle(radius))]
    ensures allocations == 0 && leaked == {}
  {
    var circle, drawer := Circle(radius), CapturelessDrawer(drawerId);
    CircleModelFitsDefaultBuffer(radius, drawerId);
    var mem := new Ledger();
    var canvas := new Canvas();
    var shape1 := new Shape(circle, drawer, mem);
    shape1.Draw(mem, canvas);
    var shape2 := new Shape.Copy(shape1, mem);
    shape2.Draw(mem, canvas);
    shape2.Destroy(mem);
    shape1.Destroy(mem);
    calls, allocations, leaked := canvas.calls, mem.heapAllocations, mem.alive;
  }

  /** Moving out of a handle and assigning over another: four models are constructed in
      buffers (two originals, the moved-to one and the assignment's copy), the target's previous
      model is destroyed by the temporary, and after all destructors have run none is left alive. */
  method MoveThenAssign(radius: real, side: real, drawerId: nat)
    returns (calls: seq<DrawCall>, leaked: set<nat>)
    ensures calls == [DrawCall(CapturelessDrawer(drawerId), Circle(radius)),
                      DrawCall(CapturelessDrawer(drawerId), Circle(radius))]
    ensures leaked == {}
  {
    var drawer := CapturelessDrawer(drawerId);
    CircleModelFitsDefaultBuffer(radius, drawerId);
    assert ModelLayout(Square(side), drawer) == ModelLayout(Circle(radius), drawer);
    var mem := new Ledger();
    var canvas := new Canvas();
    var circle := new Shape(Circle(radius), drawer, mem);
    var square := new Shape(Square(side), drawer, mem);
    var moved := new Shape.Move(circle, mem);
    var c, m := circle.buffer.id, moved.buffer.id;
    assert mem.alive == {c, square.buffer.id, m};
    moved.Draw(mem, canvas);
    assert canvas.calls == [DrawCall(drawer, Circle(radius))];
    square.Assign(moved, mem);
    var s := square.buffer.id;
    assert mem.alive == {c, m, s} && s != m && s != c;
    square.Draw(mem, canvas);
    calls := canvas.calls;
    square.Destroy(mem);
    assert mem.alive == {c, m};
    moved.Destroy(mem);
    assert mem.alive == {c};
    circle.Destroy(mem);
    leaked := mem.alive;
  }

  /** Move assignment between two handles: the target draws the source's pair, the source keeps
      a moved-from model, and once both destructors have run no model is left alive. */
  method MoveAssignThenDestroy(circle: ShapeValue, square: ShapeValue, drawerId: nat)
    returns (calls: seq<DrawCall>, sourceMovedFrom: bool, leaked: set<nat>)
    requires circle.Circle? && square.Square?
    ensures calls == [DrawCall(CapturelessDrawer(drawerId), circle)]
    ensures sourceMovedFrom && leaked == {}
  {
    var drawer := CapturelessDrawer(drawerId);
    CircleModelFitsDefaultBuffer(circle.radius, drawerId);
    assert ModelLayout(square, drawer) == ModelLayout(circle, drawer);
    var mem := new Ledger();
    var canvas := new Canvas();
    var target := new Shape(square, drawer, mem);
    var source := new Shape(circle, drawer, mem);
    var t, s := target.buffer.id, source.buffer.id;
    target.MoveAssign(source, mem);
    var m := target.buffer.id;
    assert mem.alive == {s, m} && m != s;
    target.Draw(mem, canvas);
    calls := canvas.calls;
    sourceMovedFrom := source.buffer.movedFrom;
    target.Destroy(mem);
    assert mem.alive == {s};
    source.Destroy(mem);
    leaked := mem.alive;
  }
}
