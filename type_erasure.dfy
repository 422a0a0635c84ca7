/** The owning, heap-backed `Shape` handle: it owns one heap-allocated
    `OwningShapeModel<ShapeT, DrawStrategy>` through a `unique_ptr<ShapeConcept>` and
    copies by asking the model to clone itself (deep value semantics). */
module TypeErasure {
  import opened Shapes
  import opened Lifetime

  /** `detail::OwningShapeModel`: one shape and one drawing strategy, held by value on the heap. */
  class OwningShapeModel {
    const shape: ShapeValue
    const drawer: DrawStrategy
    /** The model object's identity in the lifetime ledger. */
    const id: nat

    /** `make_unique<OwningShapeModel>(shape, drawer)`: one heap allocation. */
    constructor(shape: ShapeValue, drawer: DrawStrategy, mem: Ledger)
      requires mem.Valid()
      modifies mem
      ensures this.shape == shape && this.drawer == drawer
      ensures mem.Valid() && id !in old(mem.alive) && mem.alive == old(mem.alive) + {id}
      ensures mem.heapAllocations == old(mem.heapAllocations) + 1
    {
      this.shape := shape;
      this.drawer := drawer;
      var id := mem.Construct(true);
      this.id := id;
    }

    /** `draw() const`: applies the stored strategy to the stored shape. */
    method Draw(canvas: Canvas)
      modifies canvas
      ensures canvas.calls == old(canvas.calls) + [DrawCall(drawer, shape)]
    {
      canvas.calls := canvas.calls + [DrawCall(drawer, shape)];
    }

    /** `clone() const`: a new heap model copy-constructed from this one. */
    method Clone(mem: Ledger) returns (m: OwningShapeModel)
      requires mem.Valid()
      modifies mem
      ensures fresh(m) && m.shape == shape && m.drawer == drawer
      ensures mem.Valid() && m.id !in old(mem.alive) && mem.alive == old(mem.alive) + {m.id}
      ensures mem.heapAllocations == old(mem.heapAllocations) + 1
    {
      m := new OwningShapeModel(shape, drawer, mem);
    }
  }

  /** The erasing handle. `pimpl` is null only in a moved-from handle. */
  class Shape {
    var pimpl: OwningShapeModel?

    /** A handle that can be drawn and copied: it owns a live model. */
    ghost predicate Valid(mem: Ledger)
      reads this, mem
    {
      pimpl != null && pimpl.id in mem.alive
    }

    /** A handle that may be destroyed or assigned to: live, or moved-from. */
    ghost predicate Destructible(mem: Ledger)
      reads this, mem
    {
      pimpl != null ==> pimpl.id in mem.alive
    }

    /** `Shape(ShapeT shape, DrawStrategy drawer)`: stores exactly one model holding the pair. */
    constructor(shape: ShapeValue, drawer: DrawStrategy, mem: Ledger)
      requires mem.Valid()
      modifies mem
      ensures Valid(mem) && mem.Valid() && fresh(pimpl)
      ensures pimpl.shape == shape && pimpl.drawer == drawer && pimpl.id !in old(mem.alive)
      ensures mem.alive == old(mem.alive) + {pimpl.id}
      ensures mem.heapAllocations == old(mem.heapAllocations) + 1
    {
      pimpl := new OwningShapeModel(shape, drawer, mem);
    }

    /** `Shape(Shape const&)`: a freshly allocated clone with the same pair; `other` unchanged. */
    constructor Copy(other: Shape, mem: Ledger)
      requires other.Valid(mem) && mem.Valid()
      modifies mem
      ensures Valid(mem) && mem.Valid() && fresh(pimpl) && pimpl != other.pimpl
      ensures pimpl.shape == other.pimpl.shape && pimpl.drawer == other.pimpl.drawer
      ensures pimpl.id !in old(mem.alive) && mem.alive == old(mem.alive) + {pimpl.id}
      ensures mem.heapAllocations == old(mem.heapAllocations) + 1
    {
      var model := other.pimpl.Clone(mem);
      pimpl := model;
    }

    /** The defaulted `Shape(Shape&&)`: takes over the model; `other` is left empty. */
    constructor Move(other: Shape)
      modifies other
      ensures pimpl == old(other.pimpl) && other.pimpl == null
    {
      pimpl := other.pimpl;
      new;
      other.pimpl := null;
    }

    /** Copy assignment by copy-and-swap: this handle ends with a fresh clone of `other`, and the
        temporary's destructor releases the model this handle held before, so self-assignment
        leaves the drawn pair unchanged. */
    method Assign(other: Shape, mem: Ledger)
      requires Destructible(mem) && other.Valid(mem) && mem.Valid()
      modifies this, mem
      ensures Valid(mem) && mem.Valid() && fresh(pimpl)
      ensures pimpl.shape == old(other.pimpl.shape) && pimpl.drawer == old(other.pimpl.drawer)
      ensures pimpl.id !in old(mem.alive)
      ensures old(pimpl) == null ==> mem.alive == old(mem.alive) + {pimpl.id}
      ensures old(pimpl) != null ==> mem.alive == old(mem.alive) - {old(pimpl).id} + {pimpl.id}
      ensures other != this ==> other.pimpl == old(other.pimpl)
    {
      var copy := new Shape.Copy(other, mem);
      pimpl, copy.pimpl := copy.pimpl, pimpl;
      copy.Destroy(mem);
    }

    /** The defaulted move assignment of the `unique_ptr`: releases the model this handle held,
        takes over `other`'s and leaves `other` empty; moving from itself changes nothing.
        Two distinct handles never own the same model. */
    method MoveAssign(other: Shape, mem: Ledger)
      requires Destructible(mem) && other.Destructible(mem) && mem.Valid()
      requires other != this && pimpl != null && other.pimpl != null ==> pimpl.id != other.pimpl.id
      modifies this, other, mem
      ensures mem.Valid()
      ensures other == this ==> pimpl == old(pimpl) && mem.alive == old(mem.alive)
      ensures other != this ==> pimpl == old(other.pimpl) && other.pimpl == null
      ensures other != this && old(pimpl) != null ==> mem.alive == old(mem.alive) - {old(pimpl).id}
      ensures other != this && old(pimpl) == null ==> mem.alive == old(mem.alive)
      ensures Destructible(mem)
    {
      if other != this {
        var previous := pimpl;
        pimpl := other.pimpl;
        other.pimpl := null;
        if previous != null {
          mem.Destroy(previous.id);
        }
      }
    }

    /** `~Shape()`: the `unique_ptr` deletes the owned model, if any, exactly once. */
    method Destroy(mem: Ledger)
      requires Destructible(mem) && mem.Valid()
      modifies mem
      ensures mem.Valid() && mem.heapAllocations == old(mem.heapAllocations)
      ensures pimpl != null ==> mem.alive == old(mem.alive) - {pimpl.id}
      ensures pimpl == null ==> mem.alive == old(mem.alive)
    {
      if pimpl != null {
        mem.Destroy(pimpl.id);
      }
    }

    /** `draw(Shape const&)`: the model applies its drawer to its shape, once. */
    method Draw(mem: Ledger, canvas: Canvas)
      requires Valid(mem)
      modifies canvas
      ensures canvas.calls == old(canvas.calls) + [DrawCall(pimpl.drawer, pimpl.shape)]
    {
      pimpl.Draw(canvas);
    }
  }

  /** The usage example: draw a shape, copy it, draw the copy, destroy both at the end of
      scope. Both draws apply the same strategy to the same shape, two heap models are
      allocated, and none is left alive. */
  method DrawOriginalAndCopy(circle: ShapeValue, drawer: DrawStrategy)
    returns (calls: seq<DrawCall>, allocations: nat, leaked: set<nat>)
    ensures calls == [DrawCall(drawer, circle), DrawCall(drawer, circle)]
    ensures allocations == 2 && leaked == {}
  {
    var mem := new Ledger();
    var canvas := new Canvas();
    var shape1 := new Shape(circle, drawer, mem);
    shape1.Draw(mem, canvas);
    var shape2 := new Shape.Copy(shape1, mem);
    shape2.Draw(mem, canvas);
    shape2.Destroy(mem);
    shape1.Destroy(mem);
    calls, allocations, leaked := canvas.calls, mem.heapAllocations, mem.alive;
  }

  /** Assigning a shape to itself keeps what it draws, and the ledger ends with one model. */
  method SelfAssignment(circle: ShapeValue, drawer: DrawStrategy)
    returns (calls: seq<DrawCall>, alive: nat, leaked: set<nat>)
    ensures calls == [DrawCall(drawer, circle), DrawCall(drawer, circle)]
    ensures alive == 1 && leaked == {}
  {
    var mem := new Ledger();
    var canvas := new Canvas();
    var shape := new Shape(circle, drawer, mem);
    shape.Draw(mem, canvas);
    shape.Assign(shape, mem);
    shape.Draw(mem, canvas);
    alive := |mem.alive|;
    shape.Destroy(mem);
    calls, leaked := canvas.calls, mem.alive;
  }
}
