/** The owning `Shape` handle with a hand-built operation table: instead of a virtual base
    class, the handle stores the heap model through an untyped pointer together with three
    function pointers (deleter, draw, clone), each specialised at construction for the same
    `OwningModel<ShapeT, DrawStrategy>`. */
module ManualVirtualDispatch {
  import opened Shapes
  import opened Lifetime

  /** `OwningModel<ShapeT, DrawStrategy>`: the pair, held by value on the heap. */
  class OwningModel {
    const shape: ShapeValue
    const drawer: DrawStrategy
    const id: nat

    constructor(shape: ShapeValue, drawer: DrawStrategy, mem: Ledger)
      requires mem.Valid()
      modifies mem
      ensures this.shape == shape && this.drawer == drawer
      ensures mem.Valid() && id !in old(mem.alive) && mem.alive == old(mem.alive) + {id}
      ensures mem.heapAllocations == old(mem.heapAllocations) + 1
    {
      this.shape, this.drawer := shape, drawer;
      var id := mem.Construct(true);
      this.id := id;
    }

    function Type(): ModelType
    {
      ModelTypeOf(shape, drawer)
    }
  }

  /** A function pointer produced by a lambda inside the constructor template: it casts its
      `void*` argument to the model type it was instantiated for. */
  datatype Operation = Specialised(forType: ModelType)

  /** The draw operation: `(*model->drawer_)(model->shape_)`. Calling it on a model of another
      type would be undefined, so it requires a match. */
  method InvokeDraw(op: Operation, model: OwningModel, canvas: Canvas)
    requires op.forType == model.Type()
    modifies canvas
    ensures canvas.calls == old(canvas.calls) + [DrawCall(model.drawer, model.shape)]
  {
    canvas.calls := canvas.calls + [DrawCall(model.drawer, model.shape)];
  }

  /** The clone operation: `new Model(*model)`. */
  method InvokeClone(op: Operation, model: OwningModel, mem: Ledger) returns (copy: OwningModel)
    requires op.forType == model.Type() && mem.Valid()
    modifies mem
    ensures fresh(copy) && copy.shape == model.shape && copy.drawer == model.drawer
    ensures mem.Valid() && copy.id !in old(mem.alive) && mem.alive == old(mem.alive) + {copy.id}
    ensures mem.heapAllocations == old(mem.heapAllocations) + 1
  {
    copy := new OwningModel(model.shape, model.drawer, mem);
  }

  /** The deleter: `delete model`. */
  method InvokeDelete(op: Operation, model: OwningModel, mem: Ledger)
    requires op.forType == model.Type() && model.id in mem.alive && mem.Valid()
    modifies mem
    ensures mem.Valid() && mem.alive == old(mem.alive) - {model.id}
    ensures mem.heapAllocations == old(mem.heapAllocations)
  {
    mem.Destroy(model.id);
  }

  class Shape {
    /** `pimpl_`: the model (null once moved from) and its deleter. */
    var pimpl: OwningModel?
    var deleter: Operation
    /** `draw_` and `clone_`. */
    var draw: Operation
    var clone: Operation

    /** The operation table matches the model it is used with. */
    ghost predicate TableMatches()
      reads this, pimpl
      requires pimpl != null
    {
      deleter.forType == pimpl.Type() && draw.forType == pimpl.Type() && clone.forType == pimpl.Type()
    }

    ghost predicate Valid(mem: Ledger)
      reads this, pimpl, mem
    {
      pimpl != null && pimpl.id in mem.alive && TableMatches()
    }

    /** Live with a matching table, or moved-from: the states that may be destroyed. */
    ghost predicate Destructible(mem: Ledger)
      reads this, pimpl, mem
    {
      pimpl != null ==> Valid(mem)
    }

    /** `Shape(ShapeT, DrawStrategy)`: one heap model, and all three operations specialised for
        its type. */
    constructor(shape: ShapeValue, drawer: DrawStrategy, mem: Ledger)
      requires mem.Valid()
      modifies mem
      ensures Valid(mem) && mem.Valid() && fresh(pimpl)
      ensures pimpl.shape == shape && pimpl.drawer == drawer && pimpl.id !in old(mem.alive)
      ensures deleter == draw == clone == Specialised(ModelTypeOf(shape, drawer))
      ensures mem.alive == old(mem.alive) + {pimpl.id}
      ensures mem.heapAllocations == old(mem.heapAllocations) + 1
    {
      var model := new OwningModel(shape, drawer, mem);
      pimpl := model;
      var op := Specialised(ModelTypeOf(shape, drawer));
      deleter, draw, clone := op, op, op;
    }

    /** `Shape(Shape const&)`: a new heap model from `other.clone_`, `other`'s deleter, and copies
        of `draw_` and `clone_`. */
    constructor Copy(other: Shape, mem: Ledger)
      requires other.Valid(mem) && mem.Valid()
      modifies mem
      ensures Valid(mem) && mem.Valid() && fresh(pimpl)
      ensures pimpl.shape == other.pimpl.shape && pimpl.drawer == other.pimpl.drawer
      ensures deleter == other.deleter && draw == other.draw && clone == other.clone
      ensures pimpl.id !in old(mem.alive) && mem.alive == old(mem.alive) + {pimpl.id}
      ensures mem.heapAllocations == old(mem.heapAllocations) + 1
    {
      var model := InvokeClone(other.clone, other.pimpl, mem);
      pimpl := model;
      deleter, draw, clone := other.deleter, other.draw, other.clone;
    }

    /** The defaulted `Shape(Shape&&)`: the model and its deleter move over; the two raw function
        pointers are copied, and `other` is left without a model. */
    constructor Move(other: Shape)
      modifies other
      ensures pimpl == old(other.pimpl) && other.pimpl == null
      ensures deleter == old(other.deleter) && draw == old(other.draw) && clone == old(other.clone)
      ensures other.deleter == old(other.deleter) && other.draw == old(other.draw) && other.clone == old(other.clone)
    {
      pimpl, deleter, draw, clone := other.pimpl, other.deleter, other.draw, other.clone;
      new;
      other.pimpl := null;
    }

    /** Copy assignment: a full temporary copy, then all three members are swapped, so the table
        always matches the model; the temporary deletes the previous model through its deleter. */
    method Assign(other: Shape, mem: Ledger)
      requires Destructible(mem) && other.Valid(mem) && mem.Valid()
      modifies this, mem
      ensures Valid(mem) && mem.Valid() && fresh(pimpl)
      ensures pimpl.shape == old(other.pimpl.shape) && pimpl.drawer == old(other.pimpl.drawer)
      ensures pimpl.id !in old(mem.alive)
      ensures deleter == old(other.deleter) && draw == old(other.draw) && clone == old(other.clone)
      ensures old(pimpl) == null ==> mem.alive == old(mem.alive) + {pimpl.id}
      ensures old(pimpl) != null ==> mem.alive == old(mem.alive) - {old(pimpl).id} + {pimpl.id}
    {
      var copy := new Shape.Copy(other, mem);
      pimpl, copy.pimpl := copy.pimpl, pimpl;
      deleter, copy.deleter := copy.deleter, deleter;
      draw, copy.draw := copy.draw, draw;
      clone, copy.clone := copy.clone, clone;
      copy.Destroy(mem);
    }

    /** The defaulted move assignment: the previous model is deleted through the previous deleter,
        then model, deleter and both function pointers are taken from `other`; `other` is left
        without a model. Moving from itself changes nothing. */
    method MoveAssign(other: Shape, mem: Ledger)
      requires Destructible(mem) && other.Destructible(mem) && mem.Valid()
      requires other != this && pimpl != null && other.pimpl != null ==> pimpl.id != other.pimpl.id
      modifies this, other, mem
      ensures mem.Valid() && Destructible(mem)
      ensures other == this ==> pimpl == old(pimpl) && mem.alive == old(mem.alive)
      ensures other != this ==> pimpl == old(other.pimpl) && other.pimpl == null
      ensures other != this ==> deleter == old(other.deleter) && draw == old(other.draw) && clone == old(other.clone)
      ensures other != this ==>
                other.deleter == old(other.deleter) && other.draw == old(other.draw) && other.clone == old(other.clone)
      ensures other != this && old(pimpl) != null ==> mem.alive == old(mem.alive) - {old(pimpl).id}
      ensures other != this && old(pimpl) == null ==> mem.alive == old(mem.alive)
    {
      if other != this {
        var previous, previousDeleter := pimpl, deleter;
        pimpl, deleter, draw, clone := other.pimpl, other.deleter, other.draw, other.clone;
        other.pimpl := null;
        if previous != null {
          InvokeDelete(previousDeleter, previous, mem);
        }
      }
    }

    /** `~Shape()`: the model, if any, is deleted exactly once through the stored deleter. */
    method Destroy(mem: Ledger)
      requires Destructible(mem) && mem.Valid()
      modifies mem
      ensures mem.Valid() && mem.heapAllocations == old(mem.heapAllocations)
      ensures pimpl != null ==> mem.alive == old(mem.alive) - {pimpl.id}
      ensures pimpl == null ==> mem.alive == old(mem.alive)
    {
      if pimpl != null {
        InvokeDelete(deleter, pimpl, mem);
      }
    }

    /** `draw(Shape const&)`: calls `draw_` on `pimpl_`, which applies the model's drawer to its
        shape. */
    method Draw(mem: Ledger, canvas: Canvas)
      requires Valid(mem)
      modifies canvas
      ensures canvas.calls == old(canvas.calls) + [DrawCall(pimpl.drawer, pimpl.shape)]
    {
      InvokeDraw(draw, pimpl, canvas);
    }
  }

  /** The usage example: draw, copy, draw the copy, destroy both; the two draws agree, two heap
      models were allocated and none is left alive. */
  method DrawOriginalAndCopy(circle: ShapeValue, drawer: DrawStrategy)
    returns (calls: seq<DrawCall>, allocations: nat, leaked: set<nat>)
    ensures calls == [DrawCall(drawer, circle), DrawCall(drawer, circle)]
    ensures allocations == 2 && leaked == {}
  {
    var mem := new Ledger();
    var canvas := new Canvas();
    var shape1 := new Shape(circle, drawer, mem);
    shape1.Draw(mem, canvas);
    var shape2 := new Shape.Copy(shape1, mem);
    shape2.Draw(mem, canvas);
    shape2.Destroy(mem);
    shape1.Destroy(mem);
    calls, allocations, leaked := canvas.calls, mem.heapAllocations, mem.alive;
  }

  /** Assigning a square over a circle replaces the whole table with the square's, so drawing
      the target afterwards draws the square. */
  method AssignReplacesTable(circle: ShapeValue, square: ShapeValue, drawer: DrawStrategy)
    returns (calls: seq<DrawCall>, leaked: set<nat>)
    ensures calls == [DrawCall(drawer, circle), DrawCall(drawer, square)]
    ensures leaked == {}
  {
    var mem := new Ledger();
    var canvas := new Canvas();
    var target := new Shape(circle, drawer, mem);
    var source := new Shape(square, drawer, mem);
    target.Draw(mem, canvas);
    target.Assign(source, mem);
    target.Draw(mem, canvas);
    source.Destroy(mem);
    target.Destroy(mem);
    calls, leaked := canvas.calls, mem.alive;
  }
}
