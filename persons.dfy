/** The parts of the person (entity) subsystem that the map engine depends on:
    the command enumeration `person_cmd` and the person script slots
    `person_script_type`, with their stable numeric values. Persons themselves
    are opaque handles; their storage, movement and obstruction logic are not
    part of this model. */
module Persons {
  import opened Common

  /** An opaque handle to a live person, as returned by `find_person`. */
  datatype Person = Person(id: nat)

  datatype Direction = North | NorthEast | East | SouthEast | South | SouthWest | West | NorthWest

  datatype Command = Wait | Animate | Face(dir: Direction) | Move(dir: Direction)

  datatype PersonScriptType = OnCreate | OnDestroy | OnTouch | OnTalk | Generator

  /** `PERSON_SCRIPT_MAX`: the number of person script slots. */
  const PERSON_SCRIPT_MAX: int := 5

  function DirectionIndex(d: Direction): (n: int)
    ensures 0 <= n < 8
  {
    match d
    case North => 0
    case NorthEast => 1
    case East => 2
    case SouthEast => 3
    case South => 4
    case SouthWest => 5
    case West => 6
    case NorthWest => 7
  }

  function DirectionOfIndex(n: int): (d: Option<Direction>)
    ensures d.Some? <==> 0 <= n < 8
  {
    if n == 0 then Some(North)
    else if n == 1 then Some(NorthEast)
    else if n == 2 then Some(East)
    else if n == 3 then Some(SouthEast)
    else if n == 4 then Some(South)
    else if n == 5 then Some(SouthWest)
    else if n == 6 then Some(West)
    else if n == 7 then Some(NorthWest)
    else None
  }

  /** The numeric value of a command in the `person_cmd` enumeration. */
  function CommandCode(c: Command): (n: int)
    ensures 0 <= n < 18
    ensures c.Face? ==> 2 <= n < 10
    ensures c.Move? ==> 10 <= n < 18
  {
    match c
    case Wait => 0
    case Animate => 1
    case Face(d) => 2 + DirectionIndex(d)
    case Move(d) => 10 + DirectionIndex(d)
  }

  /** Decodes a `person_cmd` value; every value outside 0..17 is rejected. */
  function CommandOfCode(n: int): (c: Option<Command>)
    ensures c.Some? <==> 0 <= n < 18
  {
    if n == 0 then Some(Wait)
    else if n == 1 then Some(Animate)
    else if 2 <= n < 10 then Some(Face(DirectionOfIndex(n - 2).value))
    else if 10 <= n < 18 then Some(Move(DirectionOfIndex(n - 10).value))
    else None
  }

  lemma DirectionIndexRoundTrip(d: Direction)
    ensures DirectionOfIndex(DirectionIndex(d)) == Some(d)
  {
  }

  /** Decoding inverts encoding, so the command numbering is a bijection onto 0..17. */
  lemma CommandCodeRoundTrip(c: Command)
    ensures CommandOfCode(CommandCode(c)) == Some(c)
  {
    match c
    case Face(d) => DirectionIndexRoundTrip(d);
    case Move(d) => DirectionIndexRoundTrip(d);
    case _ =>
  }

  lemma CommandCodeInjective(c1: Command, c2: Command)
    ensures CommandCode(c1) == CommandCode(c2) ==> c1 == c2
  {
    CommandCodeRoundTrip(c1);
    CommandCodeRoundTrip(c2);
  }

  function PersonScriptCode(t: PersonScriptType): (n: int)
    ensures 0 <= n < PERSON_SCRIPT_MAX
  {
    match t
    case OnCreate => 0
    case OnDestroy => 1
    case OnTouch => 2
    case OnTalk => 3
    case Generator => 4
  }
}
