# Type erasure, command, observer, singleton, strong types and pimpl, modelled in Dafny

This project models the core examples of *C++ Software Design* (Klaus Iglberger): the
five `Shape` handles of the type-erasure guidelines, the undoable calculator of the Command
guideline, both forms of the Observer (a virtual base class, and `std::function` wrapped in a
value type), the replaceable singleton, CRTP strong types and the pimpl idiom. It also proves
properties of the model.

Every type-erasure handle stores one shape (`Circle` or `Square`) and one drawing strategy.
`draw` applies the strategy to the shape, and the model records that as one `DrawCall` on a
`Canvas`. A shared `Lifetime.Ledger` gives each model object an identity and tracks which
objects are alive and how many were heap-allocated. Only a live object can be destroyed, so
no model can be destroyed twice. When a scenario ends with nothing alive, every model it
constructed was destroyed exactly once. The handles are these:

- `TypeErasure`: the owning `Shape`, with its model on the heap behind a
  `std::unique_ptr<ShapeConcept>`. Copies go through `clone()`, and copy assignment uses
  copy-and-swap.
- `SmallBufferOptimization`: the same handle, but the model is placed in the handle's own
  `buffer_`. It is admitted only if the `static_assert`s on `sizeof` and `alignof` hold, and
  it never allocates on the heap. A move leaves the source holding a live, moved-from model.
- `ManualVirtualDispatch`: an untyped `pimpl_` plus three function pointers (deleter, draw,
  clone). All three are specialised for the model's type, and copy assignment swaps all of
  them.
- `NonOwningTypeErasure1`: the simple `ShapeConstRef`, which is two addresses and a thunk. It
  is a pure value over the caller's memory.
- `NonOwningTypeErasure2`: `ShapeConstRef` with a three-pointer model placed in `raw_`, and the
  owning `Shape` it converts to and from. A reference built from a `Shape` points at the shape
  and drawer inside the owning model, so there is one level of indirection. A `Shape` built
  from a reference deep-copies both objects.

The other modules:

- `Layout`: `sizeof` and `alignof` of a struct, computed from its members by rounding up to
  each member's alignment. The `static_assert`s are stated on top of it.
- `Command`: `Add` and `Subtract` commands, their `execute` and `undo`, and the `Calculator`,
  whose current value always equals the replay of its command stack from 0.
- `AddressSet`: `std::set<T*>` as a strictly increasing sequence of addresses, with the
  `insert` and `erase` that `attach` and `detach` use.
- `ClassicObserver` and `ModernObserver`: a `Person` subject with `attach`, `detach`,
  `notify` and the three setters.
- `Singleton`: the global `instance`, its lazy one-time default initialisation,
  `set_persistence_interface`, and a `Widget` that reads through the accessor.
- `StrongTypes`: `StrongType<T, Tag, Skills...>` with the `Addable`, `Subtractable` and
  `Swappable` skills, and the `Meter`, `Kilometer` and `Surname` aliases.
- `Pimpl`: `Person` with a `std::unique_ptr<Impl> const`, and its five special members.

## Model

| member | source | states |
|---|---|---|
| Shapes.ShapeLayout | G32_Type_Erasure.cpp:26-28 | a shape class whose one data member is a `double` has the layout of a struct holding just that member: 8 bytes, aligned to 8 |
| Layout.RoundUp | G33_Small_Buffer_Optimization.cpp:67-68 | the rounded offset is the least multiple of the alignment not below the input |
| Layout.MaxAlignPositive | G33_Small_Buffer_Optimization.cpp:67-68 | a struct's alignment is positive |
| Layout.MaxAlignBounds | G33_Small_Buffer_Optimization.cpp:67-68 | a struct is aligned at least as strictly as each of its members |
| Layout.EndOffsetAtLeastSum | G33_Small_Buffer_Optimization.cpp:67-68 | padding never makes the end of the last member come before the sum of the member sizes |
| Layout.StructLayoutBounds | G33_Small_Buffer_Optimization.cpp:67-68 | `sizeof` is at least the sum of the member sizes and a multiple of `alignof`, and `alignof` is at least each member's alignment |
| Layout.NonOwningModelIsThreePointers | G34_Non_Owning_Type_Erasure_2.cpp:152-155 | the non-owning model (vptr and two pointers) is exactly `3*sizeof(void*)` bytes, aligned like `void*`, so both `static_assert`s hold |
| TypeErasure.OwningShapeModel.constructor | G32_Type_Erasure.cpp:70-73 | the model holds the given shape and drawer, as one new heap object |
| TypeErasure.OwningShapeModel.Draw | G32_Type_Erasure.cpp:75 | drawing applies the model's drawer to its shape |
| TypeErasure.OwningShapeModel.Clone | G32_Type_Erasure.cpp:77-80 | cloning makes a new heap model with an equal shape and drawer |
| TypeErasure.Shape.constructor | G32_Type_Erasure.cpp:93-100 | a handle owns one new heap model holding the pair |
| TypeErasure.Shape.Copy | G32_Type_Erasure.cpp:102-104 | a copy owns a distinct new model with an equal pair |
| TypeErasure.Shape.Assign | G32_Type_Erasure.cpp:106-112 | after copy-and-swap the target holds a fresh copy of the source's pair, and the previous model is destroyed exactly once; self-assignment is safe |
| TypeErasure.Shape.Move | G32_Type_Erasure.cpp:115 | the model pointer moves over and the source is left empty |
| TypeErasure.Shape.MoveAssign | G32_Type_Erasure.cpp:116 | the previous model is destroyed and the source's is taken over; a self-move changes nothing |
| TypeErasure.Shape.Destroy | G32_Type_Erasure.cpp:114 | the owned model, if any, is destroyed exactly once |
| TypeErasure.Shape.Draw | G32_Type_Erasure.cpp:119-122 | drawing a handle applies its drawer to its shape |
| TypeErasure.DrawOriginalAndCopy | G32_Type_Erasure.cpp:135-158 | the original and its copy draw the same; two heap models are allocated and none leaks |
| TypeErasure.SelfAssignment | G32_Type_Erasure.cpp:106-112 | a handle assigned to itself draws the same pair as before, holds exactly one live model, and leaks nothing |
| SmallBufferOptimization.CloneInto | G33_Small_Buffer_Optimization.cpp:137-144 | `clone(memory)` places an equal model in another buffer, with no heap allocation |
| SmallBufferOptimization.MoveInto | G33_Small_Buffer_Optimization.cpp:146-153 | `move(memory)` places an equal model in another buffer and leaves the source alive but moved-from |
| SmallBufferOptimization.Shape.constructor | G33_Small_Buffer_Optimization.cpp:58-76 | only a model that fits the capacity and the alignment is constructed, in the buffer; the defaults are 32 bytes and pointer alignment |
| SmallBufferOptimization.Shape.Copy | G33_Small_Buffer_Optimization.cpp:78-81 | the source clones its model into this buffer |
| SmallBufferOptimization.Shape.Assign | G33_Small_Buffer_Optimization.cpp:83-89 | copy-and-swap of the buffers: the target holds a new copy, and the temporary destroys the previous model |
| SmallBufferOptimization.Shape.Move | G33_Small_Buffer_Optimization.cpp:91-94 | the source moves its model into this buffer and keeps a moved-from model of its own |
| SmallBufferOptimization.Shape.MoveAssign | G33_Small_Buffer_Optimization.cpp:96-102 | move-construct a temporary, swap the buffers, and destroy the previous model through the temporary |
| SmallBufferOptimization.Shape.Destroy | G33_Small_Buffer_Optimization.cpp:104-108 | the one model in the buffer is destroyed, moved-from or not |
| SmallBufferOptimization.Shape.Draw | G33_Small_Buffer_Optimization.cpp:111-114 | drawing applies the buffered drawer to the buffered shape |
| SmallBufferOptimization.CircleModelFitsDefaultBuffer | G33_Small_Buffer_Optimization.cpp:58-68 | a circle model with a captureless drawer is 24 bytes aligned to 8, so the default buffer admits it |
| SmallBufferOptimization.OversizedModelIsRefused | G33_Small_Buffer_Optimization.cpp:67 | a model larger than the capacity is not admissible |
| SmallBufferOptimization.DrawOriginalAndCopy | G33_Small_Buffer_Optimization.cpp:180-203 | the original and its copy draw the same; no heap allocation is made and nothing leaks |
| SmallBufferOptimization.MoveThenAssign | G33_Small_Buffer_Optimization.cpp:83-108 | after a move and a copy assignment, every model constructed in a buffer (moved-from ones included) is destroyed exactly once |
| SmallBufferOptimization.MoveAssignThenDestroy | G33_Small_Buffer_Optimization.cpp:96-108 | after a move assignment the target draws the source's pair, the source holds a moved-from model, and both destructors leave no model alive |
| ManualVirtualDispatch.OwningModel.constructor | G33_Manual_Virtual_Dispatch.cpp:114-117 | the model holds the pair, as one new heap object |
| ManualVirtualDispatch.InvokeDraw | G33_Manual_Virtual_Dispatch.cpp:69-74 | the draw function pointer, used on a model of its own type, applies the model's drawer to its shape |
| ManualVirtualDispatch.InvokeClone | G33_Manual_Virtual_Dispatch.cpp:75-80 | the clone function pointer makes a new heap model with an equal pair |
| ManualVirtualDispatch.InvokeDelete | G33_Manual_Virtual_Dispatch.cpp:64-68 | the deleter destroys a live model of its own type |
| ManualVirtualDispatch.Shape.constructor | G33_Manual_Virtual_Dispatch.cpp:60-81 | all three function pointers are specialised for the one new model's type |
| ManualVirtualDispatch.Shape.Copy | G33_Manual_Virtual_Dispatch.cpp:83-87 | a new model via `other.clone_`, with `other`'s deleter and copies of both function pointers |
| ManualVirtualDispatch.Shape.Assign | G33_Manual_Virtual_Dispatch.cpp:89-98 | swapping all three members keeps the table matched to the model; the previous model is deleted through its own deleter |
| ManualVirtualDispatch.Shape.Move | G33_Manual_Virtual_Dispatch.cpp:101 | the model and deleter move over and the raw function pointers are copied; the source has no model but keeps its deleter and both function pointers |
| ManualVirtualDispatch.Shape.MoveAssign | G33_Manual_Virtual_Dispatch.cpp:102 | the previous model is deleted, then everything is taken from the source; a self-move changes nothing |
| ManualVirtualDispatch.Shape.Destroy | G33_Manual_Virtual_Dispatch.cpp:100 | the model, if any, is deleted once through the stored deleter |
| ManualVirtualDispatch.Shape.Draw | G33_Manual_Virtual_Dispatch.cpp:105-108 | drawing calls `draw_` on `pimpl_`, which applies the model's drawer to its shape |
| ManualVirtualDispatch.DrawOriginalAndCopy | G33_Manual_Virtual_Dispatch.cpp:140-163 | the original and its copy draw the same; two heap models, none leaked |
| ManualVirtualDispatch.AssignReplacesTable | G33_Manual_Virtual_Dispatch.cpp:89-98 | after a square is assigned over a circle, the target draws the square and nothing leaks |
| NonOwningTypeErasure1.Make | G34_Non_Owning_Type_Erasure_1.cpp:57-66 | a reference stores the two given addresses and is usable while both objects live |
| NonOwningTypeErasure1.DrawAppliesReferencedPair | G34_Non_Owning_Type_Erasure_1.cpp:61-72 | drawing through a new reference applies the referenced drawer to the referenced shape |
| NonOwningTypeErasure1.CopyDrawsSamePair | G34_Non_Owning_Type_Erasure_1.cpp:88-91 | passing a reference by value and drawing the copy is the same as drawing the original |
| NonOwningTypeErasure1.DrawReadsOnlyReferencedObjects | G34_Non_Owning_Type_Erasure_1.cpp:61-65 | drawing depends only on the two referenced objects |
| NonOwningTypeErasure1.ReferenceSeesUpdates | G34_Non_Owning_Type_Erasure_1.cpp:58-60 | nothing is copied: a later update to the referenced shape is what the reference draws |
| NonOwningTypeErasure1.UsageExample | G34_Non_Owning_Type_Erasure_1.cpp:93-105 | a temporary reference to a circle and a drawer draws that pair |
| NonOwningTypeErasure2.OwningShapeModel.constructor | G34_Non_Owning_Type_Erasure_2.cpp:75-78 | the model's `shape_` and `drawer_` are new member objects holding the pair, and they live as long as the model |
| NonOwningTypeErasure2.OwningShapeModel.Draw | G34_Non_Owning_Type_Erasure_2.cpp:80 | drawing applies the member drawer to the member shape |
| NonOwningTypeErasure2.OwningShapeModel.Clone | G34_Non_Owning_Type_Erasure_2.cpp:82-85 | a new heap model with new members of equal value |
| NonOwningTypeErasure2.OwningShapeModel.CloneInto | G34_Non_Owning_Type_Erasure_2.cpp:87-97 | the placed non-owning model points at this model's own members, with no heap allocation |
| NonOwningTypeErasure2.CloneToOwner | G34_Non_Owning_Type_Erasure_2.cpp:116-120 | a new owning model holds copies of the referenced shape and drawer |
| NonOwningTypeErasure2.CloneReference | G34_Non_Owning_Type_Erasure_2.cpp:122-129 | the same two pointers, placed in another buffer |
| NonOwningTypeErasure2.ShapeConstRef.constructor | G34_Non_Owning_Type_Erasure_2.cpp:147-163 | a three-pointer model that stores the addresses of the caller's objects, with nothing copied or allocated |
| NonOwningTypeErasure2.ShapeConstRef.FromShape | G34_Non_Owning_Type_Erasure_2.cpp:259-267 | a reference to a `Shape` points at the members of its owning model, not at the handle |
| NonOwningTypeErasure2.ShapeConstRef.Copy | G34_Non_Owning_Type_Erasure_2.cpp:168-171 | a copy refers to the same two objects |
| NonOwningTypeErasure2.ShapeConstRef.Assign | G34_Non_Owning_Type_Erasure_2.cpp:173-179 | copy-and-swap of `raw_`: the target refers to the source's objects, and the previous model is destroyed |
| NonOwningTypeErasure2.ShapeConstRef.Destroy | G34_Non_Owning_Type_Erasure_2.cpp:181-185 | only the placed model is destroyed, never the referenced objects |
| NonOwningTypeErasure2.ShapeConstRef.Draw | G34_Non_Owning_Type_Erasure_2.cpp:190-193 | while the referenced objects live, drawing applies the referenced drawer to the referenced shape |
| NonOwningTypeErasure2.Shape.constructor | G34_Non_Owning_Type_Erasure_2.cpp:220-225 | a handle owns one new model holding the pair |
| NonOwningTypeErasure2.Shape.Copy | G34_Non_Owning_Type_Erasure_2.cpp:227-229 | a copy owns a new model whose members are new objects of equal value |
| NonOwningTypeErasure2.Shape.FromReference | G34_Non_Owning_Type_Erasure_2.cpp:231-233 | a `Shape` made from a reference deep-copies the referenced pair into new member objects |
| NonOwningTypeErasure2.Shape.Move | G34_Non_Owning_Type_Erasure_2.cpp:244 | the model pointer moves over and the source is left empty |
| NonOwningTypeErasure2.Shape.Assign | G34_Non_Owning_Type_Erasure_2.cpp:235-241 | copy-and-swap: the target holds a fresh copy, and the previous model is destroyed exactly once |
| NonOwningTypeErasure2.Shape.MoveAssign | G34_Non_Owning_Type_Erasure_2.cpp:245 | the previous model is destroyed and the source's is taken over; a self-move changes nothing |
| NonOwningTypeErasure2.Shape.Destroy | G34_Non_Owning_Type_Erasure_2.cpp:243 | the owned model, if any, is destroyed exactly once |
| NonOwningTypeErasure2.Shape.Draw | G34_Non_Owning_Type_Erasure_2.cpp:248-251 | drawing applies the model's drawer to its shape |
| NonOwningTypeErasure2.ReferenceRoundTrip | G34_Non_Owning_Type_Erasure_2.cpp:276-310 | shape, reference and a shape made from the reference all draw the same; the reference has one indirection; the copy outlives the original and nothing leaks |
| NonOwningTypeErasure2.ReferenceVersusCopy | G34_Non_Owning_Type_Erasure_2.cpp:147-163 | a reference sees a later change to the caller's shape, while a `Shape` made from it before the change keeps the old value |
| Command.UndoInvertsExecute | G21_Command.cpp:35-42 | for each command, `undo` inverts `execute` in both orders |
| Command.UndoAllRestoresZero | G21_Command.cpp:106-114 | undoing every stacked command brings the calculator back to 0 |
| Command.UndoTopRestoresPrefix | G21_Command.cpp:106-114 | undoing the top n commands gives the value of the remaining stack |
| Command.Calculator.constructor | G21_Command.cpp:90-91 | the calculator starts at 0 with an empty stack |
| Command.Calculator.Compute | G21_Command.cpp:100-104 | the command is executed on the current value and pushed, and the value still equals the replay of the stack |
| Command.Calculator.UndoLast | G21_Command.cpp:106-114 | with an empty stack nothing happens; otherwise the top command is popped and undone |
| Command.Calculator.Result | G21_Command.cpp:116-119 | the result is the replay of the stack from 0, and it is a representable `int` |
| Command.Calculator.Clear | G21_Command.cpp:121-125 | value 0 and an empty stack |
| Command.ComputeThenUndo | G21_Command.cpp:100-114 | on a calculator in any reachable state, `compute` followed by `undoLast` restores both the value and the stack |
| Command.UsageExample | G21_Command.cpp:137-159 | +3, +7, -4, -2 give 3, 10, 6, 4, and undoing the last gives 6 |
| AddressSet.Insert | G25_Classic_Observer.cpp:93-97 | insertion keeps the set ordered and duplicate-free, adds exactly the element, and reports success iff it was absent |
| AddressSet.Erase | G25_Classic_Observer.cpp:99-102 | erasure keeps the set ordered, removes exactly the element, and returns 1 iff it was present and 0 otherwise |
| AddressSet.EraseUndoesInsert | G25_Classic_Observer.cpp:93-102 | erasing an element that was just inserted (and was absent) gives back the original set |
| AddressSet.InsertUndoesErase | G25_Classic_Observer.cpp:93-102 | inserting an element that was just erased (and was present) gives back the original set |
| ClassicObserver.ObserversSplitTheTags | G25_Classic_Observer.cpp:132-162 | every change is answered by exactly one observer type, and the address observer answers only `addressChanged` |
| ClassicObserver.NotifyReachesEachObserverOnce | G25_Classic_Observer.cpp:104-113 | `notify` makes one `update` per attached observer, in set order, with the same subject and tag, answered as the observer's type dictates |
| ClassicObserver.Person.constructor | G25_Classic_Observer.cpp:44-47 | the names are stored, the address is empty, and nobody observes |
| ClassicObserver.Person.Attach | G25_Classic_Observer.cpp:93-97 | true iff the observer was not attached yet; afterwards it is attached, once |
| ClassicObserver.Person.Detach | G25_Classic_Observer.cpp:99-102 | true iff the observer was attached; afterwards it is not |
| ClassicObserver.Person.Notify | G25_Classic_Observer.cpp:104-113 | the loop, which advances the iterator before each call, makes exactly the updates `Notifications` describes |
| ClassicObserver.Person.SetForename | G25_Classic_Observer.cpp:75-79 | the forename is stored first, then every observer is notified with `forenameChanged` and sees the new state |
| ClassicObserver.Person.SetSurname | G25_Classic_Observer.cpp:81-85 | the same for the surname and `surnameChanged` |
| ClassicObserver.Person.SetAddress | G25_Classic_Observer.cpp:87-91 | the same for the address and `addressChanged` |
| ClassicObserver.UsageExample | G25_Classic_Observer.cpp:172-199 | all three attaches succeed; Homer's new forename reaches the name observer, and Marge's and Monty's new addresses reach the address observer, each with the person's new state, and all three respond; detaching from Homer succeeds |
| ModernObserver.UpdateAgreesWithClassic | G25_Modern_Observer.cpp:139-160 | an observer wrapping `propertyChanged` responds to exactly the tags the classic `NameObserver` responds to, and one wrapping the address lambda to exactly those of the classic `AddressObserver`, for every tag and subject |
| ModernObserver.CallbacksSplitTheTags | G25_Modern_Observer.cpp:139-160 | `propertyChanged` answers the name tags, and the lambda answers exactly `addressChanged` |
| ModernObserver.NotifyReachesEachObserverOnce | G25_Modern_Observer.cpp:121-130 | `notify` invokes each attached observer's own callback once, in set order, with the subject and the tag |
| ModernObserver.Person.constructor | G25_Modern_Observer.cpp:61-64 | the names are stored, the address is empty, and nobody observes |
| ModernObserver.Person.Attach | G25_Modern_Observer.cpp:110-114 | true iff the observer was not attached yet; afterwards it is attached, once |
| ModernObserver.Person.Detach | G25_Modern_Observer.cpp:116-119 | true iff the observer was attached; afterwards it is not |
| ModernObserver.Person.Notify | G25_Modern_Observer.cpp:121-130 | the loop makes exactly the invocations `Notifications` describes |
| ModernObserver.Person.SetForename | G25_Modern_Observer.cpp:92-96 | the forename is stored, then observers are notified with `forenameChanged` |
| ModernObserver.Person.SetSurname | G25_Modern_Observer.cpp:98-102 | the surname is stored, then observers are notified with `surnameChanged` |
| ModernObserver.Person.SetAddress | G25_Modern_Observer.cpp:104-108 | the address is stored, then observers are notified with `addressChanged` |
| ModernObserver.UsageExample | G25_Modern_Observer.cpp:148-174 | the three attaches (name observer to Homer, address observer to Marge and to Monty) all succeed, and since nothing changes, no callback is invoked |
| ModernObserver.AttachTwiceThenRename | G25_Modern_Observer.cpp:98-130 | an illustration beyond the usage example: attaching the same observer twice succeeds only the first time, and a surname change then invokes each attached callback once, in set order, where only `propertyChanged` responds |
| Singleton.Globals.constructor | G38_Singleton.cpp:83 | `instance` starts null and no static has been initialised |
| Singleton.Globals.GetPersistenceInterface | G38_Singleton.cpp:85-97 | the first call installs the default `Database` only if `instance` is null; later calls change nothing; every call returns `instance` |
| Singleton.Globals.SetPersistenceInterface | G38_Singleton.cpp:99-102 | `instance` is overwritten unconditionally |
| Singleton.Widget.constructor | G38_Singleton.cpp:112-114 | the injected pointer is stored |
| Singleton.Widget.DoSomething | G38_Singleton.cpp:116-126 | reads through whatever the global accessor returns, not through the injected pointer, and the read succeeds |
| Singleton.UsageExample | G38_Singleton.cpp:168-179 | a custom persistence set before first use is what the widget gets and uses, and no `Database` is created |
| Singleton.ResetAfterFirstUse | G38_Singleton.cpp:85-102 | the initialiser runs once: after a reset to null, the accessor returns null rather than re-installing the database |
| StrongTypes.SurnameHasNoArithmetic | G27_StrongType.cpp:133-144 | `Surname` is only printable and swappable, while the distances have all four skills |
| StrongTypes.StrongType.constructor | G27_StrongType.cpp:101 | the object wraps the given value |
| StrongTypes.StrongType.Swap | G27_StrongType.cpp:106-109 | the member `swap` exchanges the two values |
| StrongTypes.SwapStrong | G27_StrongType.cpp:122-126 | the free `swap` exchanges the two values |
| StrongTypes.SwappableSwap | G27_StrongType.cpp:84-88 | the `Swappable` skill's `swap` exchanges the two values |
| StrongTypes.Plus | G27_StrongType.cpp:28-30 | `+` makes a new object of the same type holding the sum, and neither operand changes |
| StrongTypes.Minus | G27_StrongType.cpp:44-46 | `-` makes a new object of the same type holding the difference |
| StrongTypes.PlusAssign | G27_StrongType.cpp:23-26 | `+=` adds in place and returns the left operand |
| StrongTypes.MinusAssign | G27_StrongType.cpp:39-42 | `-=` subtracts in place and returns the left operand |
| StrongTypes.UsageExample | G27_StrongType.cpp:152-162 | `Meter<long>{100} + Meter<long>{50}` holds 150 |
| StrongTypes.RoundTrips | G27_StrongType.cpp:23-42 | `+=` then `-=` by the same distance restores the value, and swapping two surnames exchanges them |
| Pimpl.MovedFrom | G28_Pimpl.cpp:74-82 | a moved-from `Impl` keeps its year of birth |
| Pimpl.Person.constructor | G28_Pimpl.cpp:58-60 | a new, value-initialised `Impl`: empty strings and year 0 |
| Pimpl.Person.Copy | G28_Pimpl.cpp:64-66 | a new `Impl` with equal data |
| Pimpl.Person.Assign | G28_Pimpl.cpp:68-72 | the data is copied into the existing `Impl`, which is never re-seated |
| Pimpl.Person.Move | G28_Pimpl.cpp:74-76 | a new `Impl` takes the source's data; the source keeps its `Impl` and its year of birth |
| Pimpl.Person.MoveAssign | G28_Pimpl.cpp:78-82 | the source's data is moved into the existing `Impl`; the year of birth survives even a self-move |
| Pimpl.UsageExample | G28_Pimpl.cpp:58-101 | a default person is born in year 0; a copy is independent of its source; a move carries the year along |

## Left out

- Bytes, `reinterpret_cast`, `std::construct_at` and `std::destroy_at` are not modelled byte by byte. A buffer is one slot that holds one model, and its layout is computed by the `Layout` functions.
- Swapping the buffers in the small-buffer `Shape` and in the second `ShapeConstRef` is modelled as swapping the two placed models. Swapping the raw bytes of objects that are not trivially relocatable is not examined.
- Drawing has no visible output in the source; the model records each call as a `DrawCall` on a `Canvas`.
- The getters of `Circle` and `Square` and their other members are not modelled; the shapes are values.
- Drawing strategies are values identified by their closure type and captured state. Calling one is modelled as recording the call. The manual-dispatch draw operation dereferences the drawer, which compiles only for captureless lambdas; the model accepts any drawer.
- Dangling references (a `ShapeConstRef` whose objects have died) and drawing a moved-from heap handle (the owning `Shape`, the manual-dispatch `Shape` and the second non-owning example's `Shape`, whose `pimpl_` is null after a move) are undefined behaviour in the source. The model makes them caller preconditions.
- SmallBufferOptimization.Shape.Draw: a moved-from small-buffer handle still holds a live model in a valid but unspecified state, so drawing it is not undefined behaviour. A moved-from model's shape and drawer are unspecified, so the model lets a moved-from small-buffer handle only be destroyed or assigned to, and `Draw` requires `!buffer.movedFrom`.
- The comments in the second non-owning example's `main` say that the reference stores a pointer to the `Shape` (two indirections) and that `Shape shape2(shaperef)` copies the reference. Those comments describe the simple `ShapeConstRef`; the model follows the code, in which the reference points at the model's members and `shape2` is a deep copy.
- Command.Calculator.Compute: signed `int` overflow is undefined behaviour, so computing a value outside 32 bits is a precondition rather than a modelled wrap-around. The command's operand must itself be a 32-bit `int`, as the `Add` and `Subtract` constructors take one.
- StrongTypes.Plus: overflow of `long` is a precondition, as for the calculator. `Meter` and `Kilometer` are instantiated for `int` values only.
- Printing (`Printable`, the free `operator<<`, and the singleton example's `std::cout`) produces no output in the model.
- The thread-safe initialisation of the function-local statics in `get_persistence_interface` is not modelled. The model is single-threaded.
- An observer that detaches or attaches during `notify` does not occur in the source, and the model does not cover it.
- ModernObserver.Update: an empty `std::function` callback throws `std::bad_function_call` when `update` is called. The model covers only the two callables the usage example wraps, `propertyChanged` and the address lambda, so no observer is empty.
- The observers' `update` bodies are empty apart from their tag test. The model records whether the test passes as `responded`.
- Pimpl.Person.Move: moved-from strings are in a valid but unspecified state. The model empties them, and the contract promises only the year of birth.
- Pimpl.Person.MoveAssign: for a self-move, the contract promises only the year of birth.
- The accessor functions of the pimpl `Person`, other than `year_of_birth`, are elided in the source. The usage example writes the `Impl` directly.
- `PersistenceInterface::write()` and the `do_write()` overrides are never called in the program, so they are not modelled. `read()` is modelled by `Singleton.Read`, which `Singleton.Widget.DoSomething` uses.
- The deleted copy and move operations of `Database` cannot be called, so there is nothing to model.
- The Visitor, Strategy, Decorator, Bridge, Prototype and External Polymorphism examples are not part of this model.
