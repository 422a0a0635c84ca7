/** The values a type-erasure handle stores, and the observable effect of drawing them.
    A `Shape` handle of any of the five variants stores one shape and one drawing strategy;
    drawing applies the strategy to the shape, which the model records as one `DrawCall`. */
module Shapes {
  import opened Layout

  /** The concrete shape types of the examples: a circle and a square, each one `double`. */
  datatype ShapeValue = Circle(radius: real) | Square(side: real)

  /** The C++ type of a shape value. */
  datatype ShapeType = CircleType | SquareType

  /** The closure type of a drawing strategy (each lambda has its own type): an identity and
      the size and alignment of its captures. */
  datatype DrawerKind = DrawerKind(id: nat, layout: TypeLayout)

  /** A drawing strategy: a callable of closure type `kind` that captured `state`. */
  datatype DrawStrategy = DrawStrategy(kind: DrawerKind, state: int)

  /** One application `drawer(shape)`, the only thing a handle does with its pair. */
  datatype DrawCall = DrawCall(drawer: DrawStrategy, shape: ShapeValue)

  /** The template arguments a model is instantiated for: `<ShapeT, DrawStrategy>`.
      Function pointers and thunks specialised for a model are identified by it. */
  datatype ModelType = ModelType(shapeType: ShapeType, drawerKind: DrawerKind)

  function TypeOf(s: ShapeValue): (t: ShapeType)
    ensures t == CircleType <==> s.Circle?
  {
    match s
    case Circle(_) => CircleType
    case Square(_) => SquareType
  }

  function ModelTypeOf(shape: ShapeValue, drawer: DrawStrategy): (t: ModelType)
    ensures t.shapeType == TypeOf(shape) && t.drawerKind == drawer.kind
  {
    ModelType(TypeOf(shape), drawer.kind)
  }

  /** `sizeof`/`alignof` of the shape types: each is a class whose one data member is a
      `double`, so it is laid out exactly like that member. */
  function ShapeLayout(t: ShapeType): (l: TypeLayout)
    ensures l == StructLayout([DoubleLayout])
  {
    var d := DoubleLayout;
    assert EndOffset([d]) == 8 && MaxAlign([d]) == 8 by { assert [d][..0] == []; }
    assert RoundUp(8, 8) == 8;
    d
  }

  /** `sizeof`/`alignof` of `OwningModel<ShapeT, DrawStrategy>`: a vptr, the shape, the drawer. */
  function OwningModelLayoutOf(t: ModelType): TypeLayout
    requires t.drawerKind.layout.align > 0
  {
    StructLayout([PointerLayout, ShapeLayout(t.shapeType), t.drawerKind.layout])
  }

  /** A captureless lambda: an empty class, size 1 and alignment 1. */
  function CapturelessDrawer(id: nat): (d: DrawStrategy)
    ensures d.kind.layout == TypeLayout(1, 1)
  {
    DrawStrategy(DrawerKind(id, TypeLayout(1, 1)), 0)
  }

  /** Where the drawers' output goes: every draw call made so far, in order. */
  class Canvas {
    var calls: seq<DrawCall>

    constructor()
      ensures calls == []
    {
      calls := [];
    }
  }

  /** Where an object lives: in a caller's scope, or as a member of the model with that
      identity in the lifetime ledger (so it dies with that model). */
  datatype Home = CallerScope | MemberOf(model: nat)

  /** An object of shape type in memory (a caller's variable or a model's `shape_` member);
      a non-owning handle points at it. */
  class ShapeCell {
    var value: ShapeValue
    const home: Home

    constructor(value: ShapeValue, home: Home)
      ensures this.value == value && this.home == home
    {
      this.value, this.home := value, home;
    }
  }

  /** An object of drawing-strategy type in memory. */
  class DrawerCell {
    var value: DrawStrategy
    const home: Home

    constructor(value: DrawStrategy, home: Home)
      ensures this.value == value && this.home == home
    {
      this.value, this.home := value, home;
    }
  }
}
