/** The replaceable singleton: a global `PersistenceInterface* instance`, installed lazily with
    a default `Database` on first access unless someone has set it already, and overwritable at
    any time through `set_persistence_interface`. */
module Singleton {
  /** The implementations of `PersistenceInterface`: the immobile `Database` (one static
      object) and `CustomPersistence` objects, identified by address. */
  datatype Persistence = Database | CustomPersistence(address: nat)

  /** A `PersistenceInterface*`. */
  datatype Pointer = Null | PointsTo(target: Persistence)

  /** `read()`, which forwards to the private `do_read()` of the object pointed to; both the
      `Database` and the `CustomPersistence` override return `true`. */
  function Read(p: Persistence): bool
  {
    match p
    case Database => true
    case CustomPersistence(_) => true
  }

  /** The program's global state: `instance`, the function-local `static bool init` (whether its
      initialiser has run) and whether the function-local `static Database db` has been
      constructed. */
  class Globals {
    var instance: Pointer
    var initialised: bool
    var databaseCreated: bool

    /** The default database only ever exists because the initialiser created it. */
    ghost predicate Valid()
      reads this
    {
      databaseCreated ==> initialised
    }

    /** Program start: `instance = nullptr`, no static initialised yet. */
    constructor()
      ensures Valid() && instance == Null && !initialised && !databaseCreated
    {
      instance, initialised, databaseCreated := Null, false, false;
    }

    /** `get_persistence_interface()`: the first call runs the initialiser, which installs the
        default database only if `instance` is still null; every call then returns whatever
        `instance` holds, null included. */
    method GetPersistenceInterface() returns (p: Pointer)
      requires Valid()
      modifies this
      ensures Valid() && initialised && p == instance
      ensures old(initialised) ==> unchanged(this)
      ensures !old(initialised) && old(instance) == Null ==> instance == PointsTo(Database) && databaseCreated
      ensures !old(initialised) && old(instance) != Null ==>
                instance == old(instance) && databaseCreated == old(databaseCreated)
    {
      if !initialised {
        if instance == Null {
          databaseCreated := true;
          instance := PointsTo(Database);
        }
        initialised := true;
      }
      p := instance;
    }

    /** `set_persistence_interface(persistence)`: overwrites `instance` unconditionally. */
    method SetPersistenceInterface(persistence: Pointer)
      requires Valid()
      modifies this`instance
      ensures Valid() && instance == persistence
    {
      instance := persistence;
    }
  }

  class Widget {
    /** The injected dependency, which `doSomething()` does not use. */
    const persistence: Pointer

    constructor(persistence: Pointer)
      ensures this.persistence == persistence
    {
      this.persistence := persistence;
    }

    /** `doSomething()`: reads through the global accessor, not through the injected pointer.
        Reading through a null pointer is undefined, so the global must not have been reset
        to null after its first use. */
    method DoSomething(globals: Globals) returns (used: Pointer, ok: bool)
      requires globals.Valid() && (globals.initialised ==> globals.instance != Null)
      modifies globals
      ensures globals.Valid() && used == globals.instance && used != Null && ok
      ensures old(globals.initialised) ==> used == old(globals.instance) && unchanged(globals)
      ensures !old(globals.initialised) && old(globals.instance) == Null ==> used == PointsTo(Database)
    {
      used := globals.GetPersistenceInterface();
      ok := Read(used.target);
    }
  }

  /** The usage example: a custom persistence is set before the first access, so that is what
      the accessor returns, what the widget is given and what it reads through; no `Database`
      is ever created. */
  method UsageExample() returns (injected: Pointer, used: Pointer, databaseCreated: bool)
    ensures injected == used == PointsTo(CustomPersistence(1)) && !databaseCreated
  {
    var globals := new Globals();
    globals.SetPersistenceInterface(PointsTo(CustomPersistence(1)));
    injected := globals.GetPersistenceInterface();
    var widget := new Widget(injected);
    var ok;
    used, ok := widget.DoSomething(globals);
    databaseCreated := globals.databaseCreated;
  }

  /** The initialiser runs once: after the default database has been installed, setting the
      global to null makes the accessor return null, and it does not install a second time. */
  method ResetAfterFirstUse() returns (first: Pointer, afterReset: Pointer)
    ensures first == PointsTo(Database) && afterReset == Null
  {
    var globals := new Globals();
    first := globals.GetPersistenceInterface();
    globals.SetPersistenceInterface(Null);
    afterReset := globals.GetPersistenceInterface();
  }
}
