/** The classic Observer: a `Person` subject keeps a set of pointers to observers with a virtual
    `update(person, property)`, and every setter notifies all of them with its own tag. */
module ClassicObserver {
  import opened AddressSet

  /** `Person::StateChange`. */
  datatype StateChange = ForenameChanged | SurnameChanged | AddressChanged

  /** The dynamic type of an observer object. */
  datatype PersonObserver = NameObserver | AddressObserver

  /** What an observer can read of the `Person const&` it is handed. */
  datatype PersonState = PersonState(forename: string, surname: string, address: string)

  /** One call `observer->update(person, property)`, and whether the observer responded. */
  datatype Update = Update(observer: nat, subject: PersonState, property: StateChange, responded: bool)

  /** `NameObserver::update` responds to name changes, `AddressObserver::update` to address
      changes. */
  function Responds(o: PersonObserver, property: StateChange): bool
  {
    match o
    case NameObserver => property == ForenameChanged || property == SurnameChanged
    case AddressObserver => property == AddressChanged
  }

  /** Every change is answered by exactly one of the two observer types. */
  lemma ObserversSplitTheTags(property: StateChange)
    ensures Responds(NameObserver, property) != Responds(AddressObserver, property)
    ensures Responds(AddressObserver, property) <==> property == AddressChanged
  {
  }

  /** The updates `notify` makes: one per observer in `observers`, in that order. `objects`
      gives the object each address points at. */
  function Notifications(observers: seq<nat>, objects: map<nat, PersonObserver>,
                         subject: PersonState, property: StateChange): seq<Update>
    requires forall a :: a in observers ==> a in objects
  {
    if observers == [] then []
    else
      var last := observers[|observers| - 1];
      Notifications(observers[..|observers| - 1], objects, subject, property)
        + [Update(last, subject, property, Responds(objects[last], property))]
  }

  /** `notify` calls `update` exactly once for each attached observer, in set order, with the
      same subject and tag, and each observer responds as its type dictates. */
  lemma {:induction false} NotifyReachesEachObserverOnce(observers: seq<nat>, objects: map<nat, PersonObserver>,
                                                         subject: PersonState, property: StateChange)
    requires forall a :: a in observers ==> a in objects
    ensures var n := Notifications(observers, objects, subject, property);
            |n| == |observers| &&
            forall i :: 0 <= i < |n| ==>
              n[i] == Update(observers[i], subject, property, Responds(objects[observers[i]], property))
  {
    if observers != [] {
      var init := observers[..|observers| - 1];
      NotifyReachesEachObserverOnce(init, objects, subject, property);
      var n := Notifications(observers, objects, subject, property);
      forall i | 0 <= i < |n|
        ensures n[i] == Update(observers[i], subject, property, Responds(objects[observers[i]], property))
      {
        if i < |init| {
          assert observers[i] == init[i];
        }
      }
    }
  }

  /** The record of all `update` calls made, in order. */
  class UpdateLog {
    var updates: seq<Update>

    constructor()
      ensures updates == []
    {
      updates := [];
    }
  }

  class Person {
    var forename: string
    var surname: string
    var address: string
    /** `observers_`, in iteration order. */
    var observers: seq<nat>

    ghost predicate Valid()
      reads this
    {
      Ordered(observers)
    }

    function State(): PersonState
      reads this
    {
      PersonState(forename, surname, address)
    }

    /** `Person(forename, surname)`: the address starts empty and nobody observes. */
    constructor(forename: string, surname: string)
      ensures Valid() && State() == PersonState(forename, surname, "") && observers == []
    {
      this.forename, this.surname, this.address := forename, surname, "";
      observers := [];
    }

    /** `attach`: true iff the observer was not attached yet; afterwards it is, once. */
    method Attach(observer: nat) returns (success: bool)
      requires Valid()
      modifies this
      ensures Valid() && State() == old(State())
      ensures success <==> observer !in old(observers)
      ensures forall a :: a in observers <==> a in old(observers) || a == observer
      ensures observers == Insert(old(observers), observer).0
    {
      var r := Insert(observers, observer);
      observers, success := r.0, r.1;
    }

    /** `detach`: true iff the observer was attached; afterwards it is not. */
    method Detach(observer: nat) returns (success: bool)
      requires Valid()
      modifies this
      ensures Valid() && State() == old(State())
      ensures success <==> observer in old(observers)
      ensures forall a :: a in observers <==> a in old(observers) && a != observer
      ensures observers == Erase(old(observers), observer).0
    {
      var r := Erase(observers, observer);
      observers, success := r.0, r.1 > 0;
    }

    /** `notify(property)`: advances the iterator before calling `update`, so each attached
        observer is updated once, in set order. */
    method Notify(property: StateChange, objects: map<nat, PersonObserver>, log: UpdateLog)
      requires Valid() && forall a :: a in observers ==> a in objects
      modifies log
      ensures log.updates == old(log.updates) + Notifications(observers, objects, State(), property)
    {
      var iter := 0;
      while iter < |observers|
        invariant 0 <= iter <= |observers|
        invariant log.updates == old(log.updates) + Notifications(observers[..iter], objects, State(), property)
      {
        var pos := iter;
        iter := iter + 1;
        assert observers[..iter][..pos] == observers[..pos];
        var target := observers[pos];
        log.updates := log.updates + [Update(target, State(), property, Responds(objects[target], property))];
      }
      assert observers[..iter] == observers;
    }

    /** `forename(newForename)`: stores the name, then notifies with `forenameChanged`. */
    method SetForename(newForename: string, objects: map<nat, PersonObserver>, log: UpdateLog)
      requires Valid() && forall a :: a in observers ==> a in objects
      modifies this, log
      ensures Valid() && observers == old(observers)
      ensures State() == old(State()).(forename := newForename)
      ensures log.updates == old(log.updates) + Notifications(observers, objects, State(), ForenameChanged)
    {
      forename := newForename;
      Notify(ForenameChanged, objects, log);
    }

    /** `surname(newSurname)`: stores the name, then notifies with `surnameChanged`. */
    method SetSurname(newSurname: string, objects: map<nat, PersonObserver>, log: UpdateLog)
      requires Valid() && forall a :: a in observers ==> a in objects
      modifies this, log
      ensures Valid() && observers == old(observers)
      ensures State() == old(State()).(surname := newSurname)
      ensures log.updates == old(log.updates) + Notifications(observers, objects, State(), SurnameChanged)
    {
      surname := newSurname;
      Notify(SurnameChanged, objects, log);
    }

    /** `address(newAddress)`: stores the address, then notifies with `addressChanged`. */
    method SetAddress(newAddress: string, objects: map<nat, PersonObserver>, log: UpdateLog)
      requires Valid() && forall a :: a in observers ==> a in objects
      modifies this, log
      ensures Valid() && observers == old(observers)
      ensures State() == old(State()).(address := newAddress)
      ensures log.updates == old(log.updates) + Notifications(observers, objects, State(), AddressChanged)
    {
      address := newAddress;
      Notify(AddressChanged, objects, log);
    }
  }

  /** The usage example: the name observer watches Homer and the address observer watches Marge
      and Monty. Homer's new forename reaches the name observer, Marge's and Monty's new
      addresses reach the address observer, and every one of them responds; all three attaches
      and the final detach succeed. */
  method UsageExample() returns (updates: seq<Update>, attached: seq<bool>, detached: bool)
    ensures updates == [Update(1, PersonState("Homer Jay", "Simpson", ""), ForenameChanged, true),
                        Update(2, PersonState("Marge", "Simpson", MargeAddress), AddressChanged, true),
                        Update(2, PersonState("Montgomery", "Burns", MontyAddress), AddressChanged, true)]
    ensures attached == [true, true, true] && detached
  {
    var objects := map[1 := NameObserver, 2 := AddressObserver];
    var log := new UpdateLog();
    var homer := new Person("Homer", "Simpson");
    var marge := new Person("Marge", "Simpson");
    var monty := new Person("Montgomery", "Burns");
    var a1 := homer.Attach(1);
    var a2 := marge.Attach(2);
    var a3 := monty.Attach(2);
    attached := [a1, a2, a3];
    assert homer.observers == [1] && marge.observers == [2] && monty.observers == [2];
    assert [1][..0] == [] && [2][..0] == [];
    homer.SetForename("Homer Jay", objects, log);
    var u1 := log.updates;
    assert u1 == [Update(1, PersonState("Homer Jay", "Simpson", ""), ForenameChanged, true)];
    marge.SetAddress(MargeAddress, objects, log);
    var u2 := log.updates;
    assert u2 == u1 + [Update(2, PersonState("Marge", "Simpson", MargeAddress), AddressChanged, true)];
    monty.SetAddress(MontyAddress, objects, log);
    assert log.updates == u2 + [Update(2, PersonState("Montgomery", "Burns", MontyAddress), AddressChanged, true)];
    updates := log.updates;
    detached := homer.Detach(1);
  }

  /** The addresses the usage example assigns. */
  const MargeAddress: string := "712 Red Bark Lane, Henderson, Clark County, Nevada 89011"
  const MontyAddress: string := "Springfield Nuclear Power Plant"
}
