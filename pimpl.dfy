/** The pimpl idiom: `Person` holds a `std::unique_ptr<Impl> const`, so every special member
    works on the one `Impl` it allocated in its constructor and never re-seats the pointer. */
module Pimpl {
  /** The data members of `Person::Impl`. */
  datatype PersonData = PersonData(
    forename: string, surname: string, address: string,
    city: string, country: string, zip: string, yearOfBirth: int)

  /** `Impl{}`: value-initialisation leaves empty strings and a zero year. */
  const ValueInitialised: PersonData := PersonData("", "", "", "", "", "", 0)

  /** What a move leaves in the source: the strings are in a valid but unspecified state (the
      model empties them), and the `int` member is copied, so it keeps its value. */
  function MovedFrom(d: PersonData): (r: PersonData)
    ensures r.yearOfBirth == d.yearOfBirth
  {
    ValueInitialised.(yearOfBirth := d.yearOfBirth)
  }

  /** `struct Person::Impl`, a heap object. */
  class Impl {
    var data: PersonData

    constructor(data: PersonData)
      ensures this.data == data
    {
      this.data := data;
    }
  }

  class Person {
    /** `std::unique_ptr<Impl> const pimpl_`: never null and never re-seated. */
    const pimpl: Impl

    /** `Person()`: allocates a value-initialised `Impl`. */
    constructor()
      ensures fresh(pimpl) && pimpl.data == ValueInitialised
    {
      pimpl := new Impl(ValueInitialised);
    }

    /** `Person(Person const&)`: a deep copy into a new `Impl`; `other` is unchanged. */
    constructor Copy(other: Person)
      ensures fresh(pimpl) && pimpl.data == other.pimpl.data
    {
      pimpl := new Impl(other.pimpl.data);
    }

    /** `operator=(Person const&)`: copies the contents into the existing `Impl`. */
    method Assign(other: Person)
      modifies pimpl
      ensures pimpl.data == old(other.pimpl.data)
    {
      pimpl.data := other.pimpl.data;
    }

    /** `Person(Person&&)`: a new `Impl` move-constructed from the source's, which stays
        allocated and keeps its year of birth. */
    constructor Move(other: Person)
      modifies other.pimpl
      ensures fresh(pimpl) && pimpl.data == old(other.pimpl.data)
      ensures other.pimpl.data.yearOfBirth == old(other.pimpl.data.yearOfBirth)
    {
      var taken := other.pimpl.data;
      other.pimpl.data := MovedFrom(taken);
      pimpl := new Impl(taken);
    }

    /** `operator=(Person&&)`: move-assigns the contents into the existing `Impl`. Moving a
        person onto itself leaves its strings unspecified too, but not its year of birth. */
    method MoveAssign(other: Person)
      modifies pimpl, other.pimpl
      ensures other != this ==> pimpl.data == old(other.pimpl.data)
      ensures pimpl.data.yearOfBirth == old(other.pimpl.data.yearOfBirth)
      ensures other.pimpl.data.yearOfBirth == old(other.pimpl.data.yearOfBirth)
    {
      var taken := other.pimpl.data;
      other.pimpl.data := MovedFrom(taken);
      pimpl.data := taken;
    }

    /** `year_of_birth() const`. */
    function YearOfBirth(): int
      reads this, pimpl
    {
      pimpl.data.yearOfBirth
    }
  }

  /** The usage example, extended by each special member: a default person is born in year
      zero; copies are independent of their source; a move carries the year along. */
  method UsageExample(data: PersonData)
    returns (defaultYear: int, copyYear: int, afterChange: int, movedYear: int, sourceYear: int)
    ensures defaultYear == 0
    ensures copyYear == data.yearOfBirth && afterChange == data.yearOfBirth
    ensures movedYear == data.yearOfBirth + 1 && sourceYear == data.yearOfBirth + 1
  {
    var p1 := new Person();
    defaultYear := p1.YearOfBirth();
    var p2 := new Person();
    // Person's further accessors are elided in the source; write the Impl directly.
    p2.pimpl.data := data;
    var p3 := new Person.Copy(p2);
    copyYear := p3.YearOfBirth();
    p2.pimpl.data := data.(yearOfBirth := data.yearOfBirth + 1);
    afterChange := p3.YearOfBirth();
    p1.Assign(p2);
    var p4 := new Person.Move(p1);
    movedYear := p4.YearOfBirth();
    sourceYear := p1.YearOfBirth();
  }
}
