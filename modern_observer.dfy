/** The value-semantics Observer: an `Observer<Subject, StateTag>` wraps a `std::function`
    callback and its non-virtual `update` forwards to it; the `Person` subject is the same as in
    the classic form. */
module ModernObserver {
  import opened AddressSet
  import Classic = ClassicObserver

  /** `Person::StateChange`. */
  datatype StateChange = ForenameChanged | SurnameChanged | AddressChanged

  /** What a callback can read of the `Person const&` it is handed. */
  datatype PersonState = PersonState(forename: string, surname: string, address: string)

  /** The callables the example wraps: the free function `propertyChanged` and the lambda
      watching the address. */
  datatype OnUpdate = PropertyChanged | AddressLambda

  /** `Observer<Person, StateChange>`: holds its callback by value. */
  datatype Observer = Observer(onUpdate: OnUpdate)

  /** One invocation of a callback, and whether the callback responded. */
  datatype Invocation = Invocation(observer: nat, callback: OnUpdate, subject: PersonState,
                                   property: StateChange, responded: bool)

  /** The callbacks: `propertyChanged` responds to name tags, the lambda to `addressChanged`. */
  function Call(f: OnUpdate, subject: PersonState, property: StateChange): bool
  {
    match f
    case PropertyChanged => property == ForenameChanged || property == SurnameChanged
    case AddressLambda => property == AddressChanged
  }

  /** `Observer::update(subject, property)`: forwards both arguments to the stored callback. */
  function Update(address: nat, o: Observer, subject: PersonState, property: StateChange): (i: Invocation)
    ensures i.callback == o.onUpdate && i.subject == subject && i.property == property
    ensures i.responded == Call(o.onUpdate, subject, property)
  {
    Invocation(address, o.onUpdate, subject, property, Call(o.onUpdate, subject, property))
  }

  /** The classic `Person::StateChange` tag that has the same name. */
  function ToClassic(property: StateChange): Classic.StateChange
  {
    match property
    case ForenameChanged => Classic.ForenameChanged
    case SurnameChanged => Classic.SurnameChanged
    case AddressChanged => Classic.AddressChanged
  }

  /** Replacing the observer class hierarchy by wrapped callables keeps the behaviour: an
      observer wrapping `propertyChanged` responds to exactly the tags the classic
      `NameObserver` responds to, and one wrapping the address lambda to exactly those of the
      classic `AddressObserver`. */
  lemma UpdateAgreesWithClassic(address: nat, subject: PersonState, property: StateChange)
    ensures Update(address, Observer(PropertyChanged), subject, property).responded
            == Classic.Responds(Classic.NameObserver, ToClassic(property))
    ensures Update(address, Observer(AddressLambda), subject, property).responded
            == Classic.Responds(Classic.AddressObserver, ToClassic(property))
  {
  }

  /** The two callbacks split the tags between them. */
  lemma CallbacksSplitTheTags(subject: PersonState, property: StateChange)
    ensures Call(PropertyChanged, subject, property) != Call(AddressLambda, subject, property)
    ensures Call(AddressLambda, subject, property) <==> property == AddressChanged
  {
  }

  /** The invocations `notify` makes: one per observer, in set order. */
  function Notifications(observers: seq<nat>, objects: map<nat, Observer>,
                         subject: PersonState, property: StateChange): seq<Invocation>
    requires forall a :: a in observers ==> a in objects
  {
    if observers == [] then []
    else
      var last := observers[|observers| - 1];
      Notifications(observers[..|observers| - 1], objects, subject, property)
        + [Update(last, objects[last], subject, property)]
  }

  /** `notify` invokes each attached observer's callback exactly once, in set order, with the
      subject and the tag. */
  lemma {:induction false} NotifyReachesEachObserverOnce(observers: seq<nat>, objects: map<nat, Observer>,
                                                         subject: PersonState, property: StateChange)
    requires forall a :: a in observers ==> a in objects
    ensures var n := Notifications(observers, objects, subject, property);
            |n| == |observers| &&
            forall i :: 0 <= i < |n| ==>
              n[i].observer == observers[i] && n[i].callback == objects[observers[i]].onUpdate &&
              n[i].subject == subject && n[i].property == property
  {
    if observers != [] {
      var init := observers[..|observers| - 1];
      NotifyReachesEachObserverOnce(init, objects, subject, property);
      var n := Notifications(observers, objects, subject, property);
      forall i | 0 <= i < |n|
        ensures n[i].observer == observers[i] && n[i].callback == objects[observers[i]].onUpdate
      {
        if i < |init| {
          assert observers[i] == init[i];
        }
      }
    }
  }

  /** The record of all callback invocations, in order. */
  class InvocationLog {
    var invocations: seq<Invocation>

    constructor()
      ensures invocations == []
    {
      invocations := [];
    }
  }

  class Person {
    var forename: string
    var surname: string
    var address: string
    /** `observers_`, in iteration order. */
    var observers: seq<nat>

    ghost predicate Valid()
      reads this
    {
      Ordered(observers)
    }

    function State(): PersonState
      reads this
    {
      PersonState(forename, surname, address)
    }

    constructor(forename: string, surname: string)
      ensures Valid() && State() == PersonState(forename, surname, "") && observers == []
    {
      this.forename, this.surname, this.address := forename, surname, "";
      observers := [];
    }

    /** `attach`: true iff the set changed; afterwards the observer is in it, once. */
    method Attach(observer: nat) returns (success: bool)
      requires Valid()
      modifies this
      ensures Valid() && State() == old(State())
      ensures success <==> observer !in old(observers)
      ensures forall a :: a in observers <==> a in old(observers) || a == observer
      ensures observers == Insert(old(observers), observer).0
    {
      var r := Insert(observers, observer);
      observers, success := r.0, r.1;
    }

    /** `detach`: true iff the set changed; afterwards the observer is not in it. */
    method Detach(observer: nat) returns (success: bool)
      requires Valid()
      modifies this
      ensures Valid() && State() == old(State())
      ensures success <==> observer in old(observers)
      ensures forall a :: a in observers <==> a in old(observers) && a != observer
      ensures observers == Erase(old(observers), observer).0
    {
      var r := Erase(observers, observer);
      observers, success := r.0, r.1 > 0;
    }

    /** `notify(property)`: each attached observer once, in set order. */
    method Notify(property: StateChange, objects: map<nat, Observer>, log: InvocationLog)
      requires Valid() && forall a :: a in observers ==> a in objects
      modifies log
      ensures log.invocations == old(log.invocations) + Notifications(observers, objects, State(), property)
    {
      var iter := 0;
      while iter < |observers|
        invariant 0 <= iter <= |observers|
        invariant log.invocations == old(log.invocations) + Notifications(observers[..iter], objects, State(), property)
      {
        var pos := iter;
        iter := iter + 1;
        assert observers[..iter][..pos] == observers[..pos];
        var target := observers[pos];
        log.invocations := log.invocations + [Update(target, objects[target], State(), property)];
      }
      assert observers[..iter] == observers;
    }

    /** `forename(newForename)`: stores the name, then notifies with `forenameChanged`. */
    method SetForename(newForename: string, objects: map<nat, Observer>, log: InvocationLog)
      requires Valid() && forall a :: a in observers ==> a in objects
      modifies this, log
      ensures Valid() && observers == old(observers)
      ensures State() == old(State()).(forename := newForename)
      ensures log.invocations == old(log.invocations) + Notifications(observers, objects, State(), ForenameChanged)
    {
      forename := newForename;
      Notify(ForenameChanged, objects, log);
    }

    /** `surname(newSurname)`: stores the name, then notifies with `surnameChanged`. */
    method SetSurname(newSurname: string, objects: map<nat, Observer>, log: InvocationLog)
      requires Valid() && forall a :: a in observers ==> a in objects
      modifies this, log
      ensures Valid() && observers == old(observers)
      ensures State() == old(State()).(surname := newSurname)
      ensures log.invocations == old(log.invocations) + Notifications(observers, objects, State(), SurnameChanged)
    {
      surname := newSurname;
      Notify(SurnameChanged, objects, log);
    }

    /** `address(newAddress)`: stores the address, then notifies with `addressChanged`. */
    method SetAddress(newAddress: string, objects: map<nat, Observer>, log: InvocationLog)
      requires Valid() && forall a :: a in observers ==> a in objects
      modifies this, log
      ensures Valid() && observers == old(observers)
      ensures State() == old(State()).(address := newAddress)
      ensures log.invocations == old(log.invocations) + Notifications(observers, objects, State(), AddressChanged)
    {
      address := newAddress;
      Notify(AddressChanged, objects, log);
    }
  }

  /** The usage example: `nameObserver` (wrapping `propertyChanged`) is attached to Homer and
      `addressObserver` (wrapping the lambda) to Marge and to Monty. Each attach succeeds, and
      since nothing changes afterwards, no callback is invoked. */
  method UsageExample() returns (attached: seq<bool>, invocations: seq<Invocation>)
    ensures attached == [true, true, true] && invocations == []
  {
    var log := new InvocationLog();
    var homer := new Person("Homer", "Simpson");
    var marge := new Person("Marge", "Simpson");
    var monty := new Person("Montgomery", "Burns");
    var a1 := homer.Attach(1);
    var a2 := marge.Attach(2);
    var a3 := monty.Attach(2);
    attached := [a1, a2, a3];
    invocations := log.invocations;
  }

  /** An illustration beyond the usage example: attaching the same observer twice succeeds only
      the first time, and a surname change then invokes each attached observer's callback once,
      in set order; only `propertyChanged` responds. */
  method AttachTwiceThenRename() returns (invocations: seq<Invocation>, first: bool, second: bool)
    ensures first && !second
    ensures invocations == [Invocation(1, PropertyChanged, PersonState("Homer", "Simpson-Bouvier", ""), SurnameChanged, true),
                            Invocation(2, AddressLambda, PersonState("Homer", "Simpson-Bouvier", ""), SurnameChanged, false)]
  {
    var objects := map[1 := Observer(PropertyChanged), 2 := Observer(AddressLambda)];
    var log := new InvocationLog();
    var homer := new Person("Homer", "Simpson");
    first := homer.Attach(1);
    second := homer.Attach(1);
    var ok := homer.Attach(2);
    homer.SetSurname("Simpson-Bouvier", objects, log);
    invocations := log.invocations;
  }
}
