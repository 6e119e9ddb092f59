/** A move-only resource holder: an age, a list of nicknames and a flag that
    records whether the object still owns its data or has had it moved out.
    There is no copy operation: the only ways to fill a Person from another
    one are the move constructor and the move assignment, and both invalidate
    the source. */
module MoveConstructors {

  /** `uint32_t`. */
  newtype u32 = x: int | 0 <= x < 0x1_0000_0000

  class Person {
    var age: u32
    var nicknames: seq<string>
    // false once this object's data has been moved to another Person
    var valid: bool

    /** Default construction: age 0, no nicknames, valid. */
    constructor ()
      ensures age == 0 && nicknames == [] && valid
    {
      age := 0;
      nicknames := [];
      valid := true;
    }

    /** Construction from an age and a nickname list taken over as it is. */
    constructor WithNicknames(age: u32, nicknames: seq<string>)
      ensures this.age == age && this.nicknames == nicknames && valid
    {
      this.age := age;
      this.nicknames := nicknames;
      valid := true;
    }

    /** Move construction: the new Person gets the source's age and nicknames
        and is valid; the source keeps its age and is no longer valid. What
        the source's nicknames hold afterwards is left unspecified. */
    constructor FromMoved(person: Person)
      modifies person
      ensures age == old(person.age) && nicknames == old(person.nicknames) && valid
      ensures !person.valid && person.age == old(person.age)
    {
      age := person.age;
      nicknames := person.nicknames;
      valid := true;
      new;
      person.valid := false;
    }

    /** Move assignment: this Person takes the source's age and nicknames and
        becomes valid, then the source is marked invalid, and this Person is
        returned. There is no self-assignment guard: because the source's flag
        is written last, moving a Person into itself leaves it invalid (its
        age unchanged, its nicknames unspecified). */
    method MoveAssign(other: Person) returns (self: Person)
      modifies this, other
      ensures self == this
      ensures age == old(other.age)
      ensures other != this ==> nicknames == old(other.nicknames) && other.age == old(other.age)
      ensures valid <==> other != this
      ensures !other.valid
    {
      age := other.age;
      nicknames := other.nicknames;
      valid := true;
      other.valid := false;
      self := this;
    }

    /** The age, read without changing anything. */
    method GetAge() returns (a: u32)
      ensures a == age
    {
      a := age;
    }

    /** Reading through the reference `GetNicknameAtI(i)` returns: the `i`-th
        nickname. There is no bounds check, so `i` must be in range. */
    method GetNicknameAtI(i: nat) returns (s: string)
      requires i < |nicknames|
      ensures s == nicknames[i]
    {
      s := nicknames[i];
    }

    /** Writing through the reference `GetNicknameAtI(i)` returns: only the
        `i`-th nickname changes; the age, the other nicknames and the flag
        stay as they were. */
    method SetNicknameAtI(i: nat, s: string)
      requires i < |nicknames|
      modifies this
      ensures nicknames == old(nicknames)[i := s]
      ensures age == old(age) && valid == old(valid)
    {
      nicknames := nicknames[i := s];
    }

    /** Whether this Person still owns its data (what the demo prints). */
    method IsValid() returns (b: bool)
      ensures b == valid
    {
      b := valid;
    }
  }

  /** The demo driver: `andy` is built from 15445 and ["andy", "pavlo"], moved
      by assignment into the default-built `andy1`, which is then moved into
      the newly constructed `andy2`. The data ends in `andy2`, intact, and
      only `andy2` is valid. */
  method MoveDemo() returns (andy: Person, andy1: Person, andy2: Person)
    ensures andy2.valid && !andy1.valid && !andy.valid
    ensures andy2.age == 15445 && andy2.nicknames == ["andy", "pavlo"]
  {
    andy := new Person.WithNicknames(15445, ["andy", "pavlo"]);
    andy1 := new Person();
    var _ := andy1.MoveAssign(andy);
    var first := andy1.GetNicknameAtI(0);
    assert first == "andy";
    andy2 := new Person.FromMoved(andy1);
    var second := andy2.GetNicknameAtI(1);
    assert second == "pavlo";
  }

  /** Moving a Person into itself, as the assignment operator is written,
      leaves it invalid although it still holds its age. */
  method SelfMoveDemo() returns (p: Person, wasValid: bool, isValid: bool)
    ensures wasValid && !isValid && p.age == 15445
  {
    p := new Person.WithNicknames(15445, ["andy", "pavlo"]);
    wasValid := p.IsValid();
    var _ := p.MoveAssign(p);
    isValid := p.IsValid();
  }
}
