/** The owning `Shape` and the non-owning `ShapeConstRef` that convert into each other with
    exactly one level of indirection. A reference built from a `Shape` points at the shape and
    drawer stored inside the owning model, never at the `Shape` handle; a `Shape` built from a
    reference deep-copies the referenced shape and drawer into a new owning model. */
module NonOwningTypeErasure2 {
  import opened Shapes
  import opened Layout
  import opened Lifetime

  /** `detail::OwningShapeModel`: a heap object whose `shape_` and `drawer_` members are objects
      of their own, which a reference can point at. They die with the model. */
  class OwningShapeModel {
    const shape: ShapeCell
    const drawer: DrawerCell
    const id: nat

    ghost predicate Members()
      reads this
    {
      shape.home == MemberOf(id) && drawer.home == MemberOf(id)
    }

    constructor(shape: ShapeValue, drawer: DrawStrategy, mem: Ledger)
      requires mem.Valid()
      modifies mem
      ensures Members() && fresh(this.shape) && fresh(this.drawer)
      ensures this.shape.value == shape && this.drawer.value == drawer
      ensures mem.Valid() && id !in old(mem.alive) && mem.alive == old(mem.alive) + {id}
      ensures mem.heapAllocations == old(mem.heapAllocations) + 1
    {
      var id := mem.Construct(true);
      this.id := id;
      this.shape := new ShapeCell(shape, MemberOf(id));
      this.drawer := new DrawerCell(drawer, MemberOf(id));
    }

    /** `draw() const`: `drawer_(shape_)`. */
    method Draw(canvas: Canvas)
      modifies canvas
      ensures canvas.calls == old(canvas.calls) + [DrawCall(drawer.value, shape.value)]
    {
      canvas.calls := canvas.calls + [DrawCall(drawer.value, shape.value)];
    }

    /** `clone() const`: a new heap model copy-constructed from this one. */
    method Clone(mem: Ledger) returns (m: OwningShapeModel)
      requires mem.Valid()
      modifies mem
      ensures fresh(m) && fresh(m.shape) && fresh(m.drawer) && m.Members()
      ensures m.shape.value == shape.value && m.drawer.value == drawer.value
      ensures mem.Valid() && m.id !in old(mem.alive) && mem.alive == old(mem.alive) + {m.id}
      ensures mem.heapAllocations == old(mem.heapAllocations) + 1
    {
      m := new OwningShapeModel(shape.value, drawer.value, mem);
    }

    /** `clone(memory) const`: places a `NonOwningShapeModel` pointing at this model's own
        `shape_` and `drawer_` into the given buffer. */
    method CloneInto(mem: Ledger) returns (placed: NonOwningShapeModel)
      requires mem.Valid()
      modifies mem
      ensures placed.shape == shape && placed.drawer == drawer
      ensures mem.Valid() && placed.id !in old(mem.alive) && mem.alive == old(mem.alive) + {placed.id}
      ensures mem.heapAllocations == old(mem.heapAllocations)
    {
      NonOwningModelIsThreePointers();
      var id := mem.Construct(false);
      placed := NonOwningShapeModel(id, shape, drawer);
    }
  }

  /** `detail::NonOwningShapeModel` as it sits in a reference's `raw_` buffer: two pointers. */
  datatype NonOwningShapeModel = NonOwningShapeModel(id: nat, shape: ShapeCell, drawer: DrawerCell)

  /** An object is alive while it is in the caller's scope or while the model holding it is. */
  predicate Alive(home: Home, mem: set<nat>)
  {
    home.MemberOf? ==> home.model in mem
  }

  /** `NonOwningShapeModel::clone() const`: a new heap owning model holding copies of the
      referenced shape and drawer. */
  method CloneToOwner(m: NonOwningShapeModel, mem: Ledger) returns (o: OwningShapeModel)
    requires mem.Valid()
    modifies mem
    ensures fresh(o) && fresh(o.shape) && fresh(o.drawer) && o.Members()
    ensures o.shape.value == m.shape.value && o.drawer.value == m.drawer.value
    ensures mem.Valid() && o.id !in old(mem.alive) && mem.alive == old(mem.alive) + {o.id}
    ensures mem.heapAllocations == old(mem.heapAllocations) + 1
  {
    o := new OwningShapeModel(m.shape.value, m.drawer.value, mem);
  }

  /** `NonOwningShapeModel::clone(memory) const`: the same two pointers, in another buffer. */
  method CloneReference(m: NonOwningShapeModel, mem: Ledger) returns (placed: NonOwningShapeModel)
    requires mem.Valid()
    modifies mem
    ensures placed == m.(id := placed.id) && placed.id !in old(mem.alive)
    ensures mem.Valid() && mem.alive == old(mem.alive) + {placed.id}
    ensures mem.heapAllocations == old(mem.heapAllocations)
  {
    var id := mem.Construct(false);
    placed := m.(id := id);
  }

  class ShapeConstRef {
    /** `raw_`: the one non-owning model placed in it. */
    var raw: NonOwningShapeModel

    ghost predicate Valid(mem: Ledger)
      reads this, mem
    {
      raw.id in mem.alive
    }

    /** The referenced objects are still alive (not a dangling reference). */
    ghost predicate Targets(mem: Ledger)
      reads this, raw.shape, raw.drawer, mem
    {
      Alive(raw.shape.home, mem.alive) && Alive(raw.drawer.home, mem.alive)
    }

    /** `ShapeConstRef(ShapeT& shape, DrawStrategy& drawer)`: a model of exactly three pointers,
        pointer-aligned, placed in `raw_`, storing the two addresses; nothing is copied. */
    constructor(shape: ShapeCell, drawer: DrawerCell, mem: Ledger)
      requires mem.Valid()
      modifies mem
      ensures Valid(mem) && mem.Valid() && raw.shape == shape && raw.drawer == drawer
      ensures raw.id !in old(mem.alive) && mem.alive == old(mem.alive) + {raw.id}
      ensures mem.heapAllocations == old(mem.heapAllocations)
    {
      NonOwningModelIsThreePointers();
      var id := mem.Construct(false);
      raw := NonOwningShapeModel(id, shape, drawer);
    }

    /** `ShapeConstRef(Shape&)` and `ShapeConstRef(Shape const&)`: the owning model places a
        reference to its own shape and drawer, so the reference points at the innermost values,
        not at the `Shape` handle. */
    constructor FromShape(other: Shape, mem: Ledger)
      requires other.Valid(mem) && mem.Valid()
      modifies mem
      ensures Valid(mem) && mem.Valid() && Targets(mem)
      ensures raw.shape == other.pimpl.shape && raw.drawer == other.pimpl.drawer
      ensures raw.id !in old(mem.alive) && mem.alive == old(mem.alive) + {raw.id}
      ensures mem.heapAllocations == old(mem.heapAllocations)
    {
      var placed := other.pimpl.CloneInto(mem);
      raw := placed;
    }

    /** `ShapeConstRef(ShapeConstRef const&)`: the same two pointers in a new buffer. */
    constructor Copy(other: ShapeConstRef, mem: Ledger)
      requires other.Valid(mem) && mem.Valid()
      modifies mem
      ensures Valid(mem) && mem.Valid() && raw.shape == other.raw.shape && raw.drawer == other.raw.drawer
      ensures raw.id !in old(mem.alive) && mem.alive == old(mem.alive) + {raw.id}
      ensures mem.heapAllocations == old(mem.heapAllocations)
    {
      var placed := CloneReference(other.raw, mem);
      raw := placed;
    }

    /** Copy assignment: copy-and-swap of `raw_`; the temporary destroys the previous model. */
    method Assign(other: ShapeConstRef, mem: Ledger)
      requires Valid(mem) && other.Valid(mem) && mem.Valid()
      modifies this, mem
      ensures Valid(mem) && mem.Valid()
      ensures raw.shape == old(other.raw.shape) && raw.drawer == old(other.raw.drawer)
      ensures raw.id !in old(mem.alive) && mem.alive == old(mem.alive) - {old(raw.id)} + {raw.id}
      ensures mem.heapAllocations == old(mem.heapAllocations)
    {
      var copy := new ShapeConstRef.Copy(other, mem);
      raw, copy.raw := copy.raw, raw;
      copy.Destroy(mem);
    }

    /** `~ShapeConstRef()`: destroys only the placed model; the referenced objects are left alone. */
    method Destroy(mem: Ledger)
      requires Valid(mem) && mem.Valid()
      modifies mem
      ensures mem.Valid() && mem.alive == old(mem.alive) - {raw.id}
      ensures mem.heapAllocations == old(mem.heapAllocations)
    {
      mem.Destroy(raw.id);
    }

    /** `draw(ShapeConstRef const&)`: `(*drawer_)(*shape_)` on the referenced objects. */
    method Draw(mem: Ledger, canvas: Canvas)
      requires Valid(mem) && Targets(mem)
      modifies canvas
      ensures canvas.calls == old(canvas.calls) + [DrawCall(raw.drawer.value, raw.shape.value)]
    {
      canvas.calls := canvas.calls + [DrawCall(raw.drawer.value, raw.shape.value)];
    }
  }

  class Shape {
    var pimpl: OwningShapeModel?

    ghost predicate Valid(mem: Ledger)
      reads this, pimpl, mem
    {
      pimpl != null && pimpl.id in mem.alive && pimpl.Members()
    }

    ghost predicate Destructible(mem: Ledger)
      reads this, pimpl, mem
    {
      pimpl != null ==> Valid(mem)
    }

    /** `Shape(ShapeT, DrawStrategy)`: one owning model holding the pair. */
    constructor(shape: ShapeValue, drawer: DrawStrategy, mem: Ledger)
      requires mem.Valid()
      modifies mem
      ensures Valid(mem) && mem.Valid() && fresh(pimpl)
      ensures pimpl.shape.value == shape && pimpl.drawer.value == drawer
      ensures pimpl.id !in old(mem.alive) && mem.alive == old(mem.alive) + {pimpl.id}
      ensures mem.heapAllocations == old(mem.heapAllocations) + 1
    {
      var model := new OwningShapeModel(shape, drawer, mem);
      pimpl := model;
    }

    /** `Shape(Shape const&)`: the owning model clones itself. */
    constructor Copy(other: Shape, mem: Ledger)
      requires other.Valid(mem) && mem.Valid()
      modifies mem
      ensures Valid(mem) && mem.Valid() && fresh(pimpl) && fresh(pimpl.shape) && fresh(pimpl.drawer)
      ensures pimpl.shape.value == other.pimpl.shape.value && pimpl.drawer.value == other.pimpl.drawer.value
      ensures pimpl.id !in old(mem.alive) && mem.alive == old(mem.alive) + {pimpl.id}
      ensures mem.heapAllocations == old(mem.heapAllocations) + 1
    {
      var model := other.pimpl.Clone(mem);
      pimpl := model;
    }

    /** `Shape(ShapeConstRef const&)`: deep-copies the referenced shape and drawer into a new
        owning model, which depends on the referenced objects no more. */
    constructor FromReference(other: ShapeConstRef, mem: Ledger)
      requires other.Valid(mem) && other.Targets(mem) && mem.Valid()
      modifies mem
      ensures Valid(mem) && mem.Valid() && fresh(pimpl) && fresh(pimpl.shape) && fresh(pimpl.drawer)
      ensures pimpl.shape.value == other.raw.shape.value && pimpl.drawer.value == other.raw.drawer.value
      ensures pimpl.id !in old(mem.alive) && mem.alive == old(mem.alive) + {pimpl.id}
      ensures mem.heapAllocations == old(mem.heapAllocations) + 1
    {
      var model := CloneToOwner(other.raw, mem);
      pimpl := model;
    }

    /** The defaulted `Shape(Shape&&)`. */
    constructor Move(other: Shape)
      modifies other
      ensures pimpl == old(other.pimpl) && other.pimpl == null
    {
      pimpl := other.pimpl;
      new;
      other.pimpl := null;
    }

    /** Copy assignment by copy-and-swap of `pimpl_`. */
    method Assign(other: Shape, mem: Ledger)
      requires Destructible(mem) && other.Valid(mem) && mem.Valid()
      modifies this, mem
      ensures Valid(mem) && mem.Valid() && fresh(pimpl)
      ensures pimpl.shape.value == old(other.pimpl.shape.value) && pimpl.drawer.value == old(other.pimpl.drawer.value)
      ensures pimpl.id !in old(mem.alive)
      ensures old(pimpl) == null ==> mem.alive == old(mem.alive) + {pimpl.id}
      ensures old(pimpl) != null ==> mem.alive == old(mem.alive) - {old(pimpl).id} + {pimpl.id}
    {
      var copy := new Shape.Copy(other, mem);
      pimpl, copy.pimpl := copy.pimpl, pimpl;
      copy.Destroy(mem);
    }

    /** The defaulted move assignment: release the previous model, take `other`'s. */
    method MoveAssign(other: Shape, mem: Ledger)
      requires Destructible(mem) && other.Destructible(mem) && mem.Valid()
      requires other != this && pimpl != null && other.pimpl != null ==> pimpl.id != other.pimpl.id
      modifies this, other, mem
      ensures mem.Valid() && Destructible(mem)
      ensures other == this ==> pimpl == old(pimpl) && mem.alive == old(mem.alive)
      ensures other != this ==> pimpl == old(other.pimpl) && other.pimpl == null
      ensures other != this && old(pimpl) != null ==> mem.alive == old(mem.alive) - {old(pimpl).id}
      ensures other != this && old(pimpl) == null ==> mem.alive == old(mem.alive)
    {
      if other != this {
        var previous := pimpl;
        pimpl := other.pimpl;
        other.pimpl := null;
        if previous != null {
          mem.Destroy(previous.id);
        }
      }
    }

    /** `~Shape()`: deletes the owned model, if any, exactly once. */
    method Destroy(mem: Ledger)
      requires Destructible(mem) && mem.Valid()
      modifies mem
      ensures mem.Valid() && mem.heapAllocations == old(mem.heapAllocations)
      ensures pimpl != null ==> mem.alive == old(mem.alive) - {pimpl.id}
      ensures pimpl == null ==> mem.alive == old(mem.alive)
    {
      if pimpl != null {
        mem.Destroy(pimpl.id);
      }
    }

    /** `draw(Shape const&)`: `drawer_(shape_)` inside the owning model. */
    method Draw(mem: Ledger, canvas: Canvas)
      requires Valid(mem)
      modifies canvas
      ensures canvas.calls == old(canvas.calls) + [DrawCall(pimpl.drawer.value, pimpl.shape.value)]
    {
      pimpl.Draw(canvas);
    }
  }

  /** The usage example: a shape, a reference to it, and a shape deep-copied from the
      reference. All three draws agree; the reference points into the first shape's model; the
      copy still draws the same after the first shape and the reference are gone; nothing is
      leaked. */
  method ReferenceRoundTrip(circle: ShapeValue, drawer: DrawStrategy)
    returns (calls: seq<DrawCall>, singleIndirection: bool, leaked: set<nat>)
    ensures calls == [DrawCall(drawer, circle), DrawCall(drawer, circle),
                      DrawCall(drawer, circle), DrawCall(drawer, circle)]
    ensures singleIndirection && leaked == {}
  {
    var mem := new Ledger();
    var canvas := new Canvas();
    var shape1 := new Shape(circle, drawer, mem);
    shape1.Draw(mem, canvas);
    var shaperef := new ShapeConstRef.FromShape(shape1, mem);
    singleIndirection := shaperef.raw.shape == shape1.pimpl.shape && shaperef.raw.drawer == shape1.pimpl.drawer;
    shaperef.Draw(mem, canvas);
    var shape2 := new Shape.FromReference(shaperef, mem);
    shape2.Draw(mem, canvas);
    shaperef.Destroy(mem);
    shape1.Destroy(mem);
    shape2.Draw(mem, canvas);
    shape2.Destroy(mem);
    calls, leaked := canvas.calls, mem.alive;
  }

  /** A reference to the caller's objects sees later changes to them; a `Shape` materialised
      from the reference before the change keeps the value it copied. */
  method ReferenceVersusCopy(before: ShapeValue, after: ShapeValue, drawer: DrawStrategy)
    returns (calls: seq<DrawCall>, leaked: set<nat>)
    ensures calls == [DrawCall(drawer, after), DrawCall(drawer, before)]
    ensures leaked == {}
  {
    var mem := new Ledger();
    var canvas := new Canvas();
    var shapeObject := new ShapeCell(before, CallerScope);
    var drawerObject := new DrawerCell(drawer, CallerScope);
    var shaperef := new ShapeConstRef(shapeObject, drawerObject, mem);
    var owned := new Shape.FromReference(shaperef, mem);
    shapeObject.value := after;
    shaperef.Draw(mem, canvas);
    owned.Draw(mem, canvas);
    owned.Destroy(mem);
    shaperef.Destroy(mem);
    calls, leaked := canvas.calls, mem.alive;
  }
}
