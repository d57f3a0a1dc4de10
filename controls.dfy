/** Player instructions and robot headings (src/structs/controls.rs). */
module Controls {
  import opened Wrappers
  import opened Text
  import opened Tiles

  /**
   * A player instruction. Each of the three colour conditionals boxes exactly one
   * inner instruction, which may itself be a conditional.
   */
  datatype Instruction =
    | Forward
    | TurnLeft
    | TurnRight
    | CallFunction(index: nat)
    | ConditionalRed(inner: Instruction)
    | ConditionalGreen(inner: Instruction)
    | ConditionalBlue(inner: Instruction)
    | Noop
  {
    predicate IsConditional() {
      ConditionalRed? || ConditionalGreen? || ConditionalBlue?
    }

    /** The colour a conditional tests (`get_instruction_color`); the other instructions test none. */
    function ConditionColor(): (c: Option<TileColor>)
      ensures c.Some? <==> IsConditional()
      ensures c == Some(Red) <==> ConditionalRed?
      ensures c == Some(Green) <==> ConditionalGreen?
      ensures c == Some(Blue) <==> ConditionalBlue?
    {
      match this
      case ConditionalRed(_) => Some(Red)
      case ConditionalGreen(_) => Some(Green)
      case ConditionalBlue(_) => Some(Blue)
      case _ => None
    }
  }

  /** The robot's heading; North is the default. */
  datatype Direction = North | East | South | West {

    /** A quarter turn anticlockwise; turning right again undoes it. */
    function TurnLeft(): (d: Direction)
      ensures d != this
      ensures d.TurnRight() == this
    {
      match this
      case North => West
      case West => South
      case South => East
      case East => North
    }

    /** A quarter turn clockwise. */
    function TurnRight(): (d: Direction)
      ensures d != this
    {
      match this
      case North => East
      case East => South
      case South => West
      case West => North
    }

    /**
     * The grid step taken when moving forward. The y axis points down the grid,
     * so North decreases y.
     */
    function Offset(): (o: (int, int))
      ensures (o.0 == 0 && (o.1 == 1 || o.1 == -1)) || (o.1 == 0 && (o.0 == 1 || o.0 == -1))
      ensures o == (0, -1) <==> this == North
    {
      match this
      case North => (0, -1)
      case East => (1, 0)
      case South => (0, 1)
      case West => (-1, 0)
    }
  }

  /** Turning left then right, or right then left, restores the heading. */
  lemma TurnsAreInverse(d: Direction)
    ensures d.TurnLeft().TurnRight() == d && d.TurnRight().TurnLeft() == d
  {
  }

  /** Four turns the same way are the identity, and one, two or three are not. */
  lemma FourTurnsAreIdentity(d: Direction)
    ensures d.TurnLeft().TurnLeft().TurnLeft().TurnLeft() == d
    ensures d.TurnRight().TurnRight().TurnRight().TurnRight() == d
    ensures d.TurnLeft().TurnLeft() != d && d.TurnLeft().TurnLeft().TurnLeft() != d
    ensures d.TurnRight().TurnRight() != d && d.TurnRight().TurnRight().TurnRight() != d
  {
  }

  /** The opposite heading steps the opposite way. */
  lemma OppositeOffset(d: Direction)
    ensures d.TurnRight().TurnRight().Offset() == (-d.Offset().0, -d.Offset().1)
    ensures d.TurnLeft().TurnLeft() == d.TurnRight().TurnRight()
  {
  }

  /** The spellings a level file may use for a heading, in upper case. */
  function Spellings(d: Direction): set<string> {
    match d
    case North => {"NORTH", "N"}
    case East => {"EAST", "E"}
    case South => {"SOUTH", "S"}
    case West => {"WEST", "W"}
  }

  /** `Direction::from_str`: case-insensitive, full name or initial letter. */
  function FromStr(s: string): (r: Option<Direction>)
    ensures r.Some? ==> ToUpper(s) in Spellings(r.value)
    ensures r.None? ==> forall d: Direction :: ToUpper(s) !in Spellings(d)
  {
    var u := ToUpper(s);
    if u == "NORTH" || u == "N" then Some(North)
    else if u == "EAST" || u == "E" then Some(East)
    else if u == "SOUTH" || u == "S" then Some(South)
    else if u == "WEST" || u == "W" then Some(West)
    else None
  }

  /** Parsing ignores case: a string and its upper-case form parse alike. */
  lemma FromStrIgnoresCase(s: string)
    ensures FromStr(s) == FromStr(ToUpper(s))
  {
    ToUpperIdempotent(s);
  }

  /** Every word whose upper-case form is a listed spelling, in any case, parses to its heading. */
  lemma FromStrAcceptsSpellings(d: Direction, w: string)
    requires ToUpper(w) in Spellings(d)
    ensures FromStr(w) == Some(d)
  {
  }
}
