/** The simple non-owning `ShapeConstRef`: two addresses (of a caller's shape and of a caller's
    drawing strategy) and a thunk instantiated for their types. It is an immutable value: it
    never copies, owns or releases the objects it refers to. */
module NonOwningTypeErasure1 {
  import opened Shapes

  type Address = nat

  /** What lives at an address. */
  datatype Object = ShapeObject(shape: ShapeValue) | DrawerObject(drawer: DrawStrategy)

  /** The caller's objects, by address. */
  type Memory = map<Address, Object>

  /** `shape_`, `drawer_` and the thunk `draw_`, which is identified by the pair of types it
      was instantiated for. */
  datatype ShapeConstRef = ShapeConstRef(shape: Address, drawer: Address, draw: ModelType)

  /** Both referenced objects are alive and have the types the thunk casts to. Using a
      reference whose objects have died is undefined behaviour, so this is on the caller. */
  predicate Live(r: ShapeConstRef, m: Memory)
  {
    r.shape in m && m[r.shape].ShapeObject? && r.drawer in m && m[r.drawer].DrawerObject?
    && ModelTypeOf(m[r.shape].shape, m[r.drawer].drawer) == r.draw
  }

  /** `ShapeConstRef(ShapeT& shape, DrawStrategy& drawer)`: only objects that exist (lvalues)
      can be referred to; their addresses are stored and the thunk is instantiated for their
      types. */
  function Make(shape: Address, drawer: Address, m: Memory): (r: ShapeConstRef)
    requires shape in m && m[shape].ShapeObject? && drawer in m && m[drawer].DrawerObject?
    ensures r.shape == shape && r.drawer == drawer && Live(r, m)
  {
    ShapeConstRef(shape, drawer, ModelTypeOf(m[shape].shape, m[drawer].drawer))
  }

  /** The thunk: casts the two addresses back to the types it was instantiated for and applies
      the drawer to the shape. */
  function Thunk(op: ModelType, shapeBytes: Address, drawerBytes: Address, m: Memory): DrawCall
    requires shapeBytes in m && m[shapeBytes].ShapeObject? && drawerBytes in m && m[drawerBytes].DrawerObject?
    requires ModelTypeOf(m[shapeBytes].shape, m[drawerBytes].drawer) == op
  {
    DrawCall(m[drawerBytes].drawer, m[shapeBytes].shape)
  }

  /** `draw(ShapeConstRef const&)`: calls the thunk with the two stored addresses. */
  function Draw(r: ShapeConstRef, m: Memory): DrawCall
    requires Live(r, m)
  {
    Thunk(r.draw, r.shape, r.drawer, m)
  }

  /** `useShapeConstRef(ShapeConstRef shape)`: takes the reference by value (the implicit copy)
      and draws through the copy. */
  function UseShapeConstRef(shape: ShapeConstRef, m: Memory): DrawCall
    requires Live(shape, m)
  {
    var copy := shape;
    Draw(copy, m)
  }

  /** Drawing through a reference applies the referenced drawer to the referenced shape. */
  lemma DrawAppliesReferencedPair(shape: Address, drawer: Address, m: Memory)
    requires shape in m && m[shape].ShapeObject? && drawer in m && m[drawer].DrawerObject?
    ensures Draw(Make(shape, drawer, m), m) == DrawCall(m[drawer].drawer, m[shape].shape)
  {
  }

  /** Passing a reference by value keeps the two addresses and the thunk: the copy draws the
      same pair, with no added indirection. */
  lemma CopyDrawsSamePair(r: ShapeConstRef, m: Memory)
    requires Live(r, m)
    ensures UseShapeConstRef(r, m) == Draw(r, m) == DrawCall(m[r.drawer].drawer, m[r.shape].shape)
  {
  }

  /** A reference reads only the two objects it points at. */
  lemma DrawReadsOnlyReferencedObjects(r: ShapeConstRef, m1: Memory, m2: Memory)
    requires Live(r, m1) && r.shape in m2 && r.drawer in m2
    requires m2[r.shape] == m1[r.shape] && m2[r.drawer] == m1[r.drawer]
    ensures Live(r, m2) && Draw(r, m2) == Draw(r, m1)
  {
  }

  /** A reference does not copy: after the caller updates the referenced shape with a value of
      the same type, drawing through the same reference draws the new value. */
  lemma ReferenceSeesUpdates(r: ShapeConstRef, m: Memory, updated: ShapeValue)
    requires Live(r, m) && TypeOf(updated) == TypeOf(m[r.shape].shape)
    ensures Live(r, m[r.shape := ShapeObject(updated)])
    ensures Draw(r, m[r.shape := ShapeObject(updated)]) == DrawCall(m[r.drawer].drawer, updated)
  {
  }

  /** The usage example: a circle and a drawer in the caller's scope, drawn through a
      temporary reference passed by value. */
  lemma UsageExample(radius: real, drawer: DrawStrategy)
    ensures var m := map[0 := ShapeObject(Circle(radius)), 1 := DrawerObject(drawer)];
            UseShapeConstRef(Make(0, 1, m), m) == DrawCall(drawer, Circle(radius))
  {
  }
}
