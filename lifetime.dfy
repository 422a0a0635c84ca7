/** The lifetime ledger shared by the owning handles: it hands out an identity to every model
    object that is constructed, remembers which ones are still alive, and counts heap allocations.
    Destroying requires the object to be alive, so no model can be destroyed twice; a scenario that
    ends with nothing alive has destroyed every model it constructed exactly once. */
module Lifetime {
  class Ledger {
    /** Identities 0 .. next-1 have been handed out. */
    var next: nat
    /** Constructed and not yet destroyed. */
    var alive: set<nat>
    /** Number of `new`/`make_unique` calls made for models. */
    var heapAllocations: nat

    ghost predicate Valid()
      reads this
    {
      forall id :: id in alive ==> id < next
    }

    constructor()
      ensures Valid() && next == 0 && alive == {} && heapAllocations == 0
    {
      next, alive, heapAllocations := 0, {}, 0;
    }

    /** Constructs one model object, on the heap or in place in a buffer. */
    method Construct(onHeap: bool) returns (id: nat)
      requires Valid()
      modifies this
      ensures Valid() && id == old(next) && next == old(next) + 1
      ensures id !in old(alive) && alive == old(alive) + {id}
      ensures heapAllocations == old(heapAllocations) + (if onHeap then 1 else 0)
    {
      id := next;
      next := next + 1;
      alive := alive + {id};
      if onHeap {
        heapAllocations := heapAllocations + 1;
      }
    }

    /** Runs the destructor of a live model object. */
    method Destroy(id: nat)
      requires Valid() && id in alive
      modifies this
      ensures Valid() && next == old(next) && heapAllocations == old(heapAllocations)
      ensures alive == old(alive) - {id}
    {
      alive := alive - {id};
    }
  }
}
