/** The toy robot on a 5x5 table: the compass directions, the robot's state as
    a value with one function per transition, and the `Robot` class whose
    methods update its three optional fields in place. */
module Rover {
  import opened Wrappers
  import opened Strings

  /** Cells on each axis; a position is on the table when both coordinates are
      in 0 .. TableSize - 1. */
  const TableSize: int := 5

  /** What `report` returns while the robot is not placed. */
  const NotOnTable: string := "Robot is not on the table"

  // ---------------------------------------------------------------------
  // Directions
  // ---------------------------------------------------------------------

  datatype Direction = North | East | South | West

  /** The enum value: NORTH = 0, EAST = 1, SOUTH = 2, WEST = 3. */
  function Index(d: Direction): (i: nat)
    ensures i < 4
  {
    match d
    case North => 0
    case East => 1
    case South => 2
    case West => 3
  }

  /** `Direction(i)`: the member whose value is `i`. */
  function FromIndex(i: int): (d: Direction)
    requires 0 <= i < 4
    ensures Index(d) == i
  {
    if i == 0 then North else if i == 1 then East else if i == 2 then South else West
  }

  /** `d.name`: the upper-case member name. */
  function Name(d: Direction): (n: string)
    ensures IsWord(n) && ',' !in n
    ensures forall i :: 0 <= i < |n| ==> IsUpperAscii(n[i])
  {
    match d
    case North => "NORTH"
    case East => "EAST"
    case South => "SOUTH"
    case West => "WEST"
  }

  /** `Direction[name]`: lookup by member name; `None` is the `KeyError` case. */
  function FromName(name: string): (d: Option<Direction>)
    ensures d.Some? ==> Name(d.value) == name
  {
    if name == "NORTH" then Some(North)
    else if name == "EAST" then Some(East)
    else if name == "SOUTH" then Some(South)
    else if name == "WEST" then Some(West)
    else None
  }

  /** Looking a direction up by its own name finds it. */
  lemma FromNameOfName(d: Direction)
    ensures FromName(Name(d)) == Some(d)
  {
  }

  /** `Direction((d.value + 1) % 4)`: a quarter turn clockwise. The wrap from
      WEST back to NORTH is written out; `RotationIsModular` proves it is the
      remainder modulo 4. */
  function RightOf(d: Direction): Direction {
    var i := Index(d) + 1;
    FromIndex(if i == 4 then 0 else i)
  }

  /** `Direction((d.value - 1) % 4)`: a quarter turn counter-clockwise, with the
      wrap from NORTH back to WEST written out. */
  function LeftOf(d: Direction): Direction {
    var i := Index(d) - 1;
    FromIndex(if i < 0 then 3 else i)
  }

  /** The turns are the index arithmetic of the source: plus or minus one,
      modulo 4. Python's `%` rounds toward minus infinity, which for the
      divisor 4 agrees with Dafny's Euclidean `%` (`-1 % 4 == 3` in both). */
  lemma RotationIsModular(d: Direction)
    ensures Index(RightOf(d)) == (Index(d) + 1) % 4
    ensures Index(LeftOf(d)) == (Index(d) - 1) % 4
  {
    match d
    case North => assert (0 - 1) % 4 == 3;
    case East =>
    case South =>
    case West => assert (3 + 1) % 4 == 0;
  }

  /** The two turns undo each other. */
  lemma TurnsAreInverse(d: Direction)
    ensures LeftOf(RightOf(d)) == d && RightOf(LeftOf(d)) == d
  {
    match d
    case North => assert RightOf(d) == East && LeftOf(d) == West;
    case East => assert RightOf(d) == South && LeftOf(d) == North;
    case South => assert RightOf(d) == West && LeftOf(d) == East;
    case West => assert RightOf(d) == North && LeftOf(d) == South;
  }

  /** Adding a multiple of 4 does not change a residue. */
  lemma ModFourShift(i: int, q: int)
    requires 0 <= i < 4
    ensures (i + 4 * q) % 4 == i
  {
  }

  /** Adding (or subtracting) one after reducing modulo 4 is the same as before. */
  lemma ModFourStep(a: int)
    ensures ((a % 4) + 1) % 4 == (a + 1) % 4
    ensures ((a % 4) - 1) % 4 == (a - 1) % 4
  {
    var q := a / 4;
    assert a == 4 * q + a % 4;
    assert a + 1 == 4 * q + (a % 4 + 1);
    assert a - 1 == 4 * q + (a % 4 - 1);
  }

  function RightTurns(d: Direction, n: nat): Direction {
    if n == 0 then d else RightOf(RightTurns(d, n - 1))
  }

  function LeftTurns(d: Direction, n: nat): Direction {
    if n == 0 then d else LeftOf(LeftTurns(d, n - 1))
  }

  /** `n` right turns add `n` to the index modulo 4. */
  lemma {:induction false} RightTurnsIndex(d: Direction, n: nat)
    ensures Index(RightTurns(d, n)) == (Index(d) + n) % 4
  {
    if n > 0 {
      var e := RightTurns(d, n - 1);
      RightTurnsIndex(d, n - 1);
      RotationIsModular(e);
      ModFourStep(Index(d) + n - 1);
    }
  }

  /** `n` left turns subtract `n` from the index modulo 4. */
  lemma {:induction false} LeftTurnsIndex(d: Direction, n: nat)
    ensures Index(LeftTurns(d, n)) == (Index(d) - n) % 4
  {
    if n > 0 {
      var e := LeftTurns(d, n - 1);
      LeftTurnsIndex(d, n - 1);
      RotationIsModular(e);
      ModFourStep(Index(d) - n + 1);
    }
  }

  lemma IndexDetermines(d: Direction, e: Direction)
    requires Index(d) == Index(e)
    ensures d == e
  {
  }

  /** Four quarter turns (or any multiple of four) in either sense return to
      the starting direction. */
  lemma FullTurn(d: Direction, n: nat)
    requires n % 4 == 0
    ensures RightTurns(d, n) == d && LeftTurns(d, n) == d
  {
    FullRightTurn(d, n);
    FullLeftTurn(d, n);
  }

  lemma FullRightTurn(d: Direction, n: nat)
    requires n % 4 == 0
    ensures RightTurns(d, n) == d
  {
    RightTurnsIndex(d, n);
    ModFourShift(Index(d), n / 4);
    IndexDetermines(RightTurns(d, n), d);
  }

  lemma FullLeftTurn(d: Direction, n: nat)
    requires n % 4 == 0
    ensures LeftTurns(d, n) == d
  {
    LeftTurnsIndex(d, n);
    ModFourShift(Index(d), -(n / 4));
    IndexDetermines(LeftTurns(d, n), d);
  }

  /** The unit step of one move: the `moves` table of `_get_new_position`. */
  function Delta(d: Direction): (step: (int, int))
    ensures (step.0 == 0) != (step.1 == 0)
    ensures -1 <= step.0 <= 1 && -1 <= step.1 <= 1
  {
    match d
    case North => (0, 1)
    case East => (1, 0)
    case South => (0, -1)
    case West => (-1, 0)
  }

  /** Turning right turns the step vector clockwise: (dx, dy) becomes (dy, -dx). */
  lemma DeltaOfRight(d: Direction)
    ensures Delta(RightOf(d)) == (Delta(d).1, -Delta(d).0)
  {
    match d
    case North => assert RightOf(d) == East;
    case East => assert RightOf(d) == South;
    case South => assert RightOf(d) == West;
    case West => assert RightOf(d) == North;
  }

  // ---------------------------------------------------------------------
  // The robot's state as a value, and its transitions
  // ---------------------------------------------------------------------

  /** `_is_valid_position`. */
  predicate IsValidPosition(x: int, y: int) {
    0 <= x < TableSize && 0 <= y < TableSize
  }

  /** `Unplaced` is the state in which x, y and direction are all `None`. */
  datatype RobotState = Unplaced | Placed(x: int, y: int, facing: Direction)

  /** A placed robot stands on the table. */
  predicate InBounds(s: RobotState) {
    s.Placed? ==> IsValidPosition(s.x, s.y)
  }

  /** `place(x, y, direction)`: overwrite the state when (x, y) is on the table,
      otherwise ignore the call. */
  function AfterPlace(s: RobotState, x: int, y: int, direction: Direction): (r: RobotState)
    ensures InBounds(s) ==> InBounds(r)
    ensures r == s || r == Placed(x, y, direction)
  {
    if IsValidPosition(x, y) then Placed(x, y, direction) else s
  }

  /** `move()`: one step in the facing direction unless that leaves the table. */
  function AfterMove(s: RobotState): (r: RobotState)
    ensures InBounds(s) ==> InBounds(r)
    ensures r.Placed? <==> s.Placed?
    ensures r.Placed? ==> r.facing == s.facing
    ensures r.Placed? && r != s ==> r.x == s.x + Delta(s.facing).0 && r.y == s.y + Delta(s.facing).1
  {
    match s
    case Unplaced => Unplaced
    case Placed(x, y, d) =>
      var (newX, newY) := (x + Delta(d).0, y + Delta(d).1);
      if IsValidPosition(newX, newY) then Placed(newX, newY, d) else s
  }

  /** `left()`: a quarter turn counter-clockwise in place. */
  function AfterLeft(s: RobotState): (r: RobotState)
    ensures InBounds(s) ==> InBounds(r)
    ensures r.Placed? <==> s.Placed?
    ensures r.Placed? ==> r.x == s.x && r.y == s.y
    ensures r.Placed? ==> Index(r.facing) == (Index(s.facing) - 1) % 4
  {
    match s
    case Unplaced => Unplaced
    case Placed(x, y, d) => RotationIsModular(d); Placed(x, y, LeftOf(d))
  }

  /** `right()`: a quarter turn clockwise in place. */
  function AfterRight(s: RobotState): (r: RobotState)
    ensures InBounds(s) ==> InBounds(r)
    ensures r.Placed? <==> s.Placed?
    ensures r.Placed? ==> r.x == s.x && r.y == s.y
    ensures r.Placed? ==> Index(r.facing) == (Index(s.facing) + 1) % 4
  {
    match s
    case Unplaced => Unplaced
    case Placed(x, y, d) => RotationIsModular(d); Placed(x, y, RightOf(d))
  }

  /** `report()`: `"<x>,<y>,<NAME>"` when placed, the sentinel otherwise. */
  function ReportOf(s: RobotState): (r: string)
    ensures r == NotOnTable <==> s.Unplaced?
  {
    match s
    case Unplaced => NotOnTable
    case Placed(x, y, d) =>
      var r := IntToString(x) + "," + IntToString(y) + "," + Name(d);
      assert r[|IntToString(x)|] == ',';
      assert ',' !in NotOnTable;
      r
  }

  /** A valid placement replaces the state entirely, whatever it was. */
  lemma PlaceOverwrites(s: RobotState, t: RobotState, x: int, y: int, d: Direction)
    requires IsValidPosition(x, y)
    ensures AfterPlace(s, x, y, d) == AfterPlace(t, x, y, d) == Placed(x, y, d)
  {
  }

  /** A placement off the table changes nothing. */
  lemma PlaceOffTableIgnored(s: RobotState, x: int, y: int, d: Direction)
    requires !IsValidPosition(x, y)
    ensures AfterPlace(s, x, y, d) == s
  {
  }

  /** A move is blocked exactly when the step would leave the table. */
  lemma MoveBlockedIff(s: RobotState)
    requires s.Placed?
    ensures AfterMove(s) == s <==>
      !IsValidPosition(s.x + Delta(s.facing).0, s.y + Delta(s.facing).1)
  {
  }

  /** An unplaced robot ignores move, left and right. */
  lemma UnplacedIgnoresMotion()
    ensures AfterMove(Unplaced) == AfterLeft(Unplaced) == AfterRight(Unplaced) == Unplaced
  {
  }

  /** Turning left then right, or right then left, is the identity. */
  lemma TurnsCancel(s: RobotState)
    ensures AfterRight(AfterLeft(s)) == s && AfterLeft(AfterRight(s)) == s
  {
    if s.Placed? {
      TurnsAreInverse(s.facing);
    }
  }

  /** Four quarter turns the same way give back the same state. */
  lemma FourTurnsRestore(s: RobotState)
    ensures AfterLeft(AfterLeft(AfterLeft(AfterLeft(s)))) == s
    ensures AfterRight(AfterRight(AfterRight(AfterRight(s)))) == s
  {
    if s.Placed? {
      var d := s.facing;
      FullLeftTurn(d, 4);
      FullRightTurn(d, 4);
      assert LeftTurns(d, 4) == LeftOf(LeftOf(LeftOf(LeftOf(d))));
      assert RightTurns(d, 4) == RightOf(RightOf(RightOf(RightOf(d))));
    }
  }

  function TurnAround(s: RobotState): RobotState {
    AfterRight(AfterRight(s))
  }

  /** A move that was not blocked can be undone: turn around, move, turn around. */
  lemma MoveUndone(s: RobotState)
    requires InBounds(s) && AfterMove(s) != s
    ensures TurnAround(AfterMove(TurnAround(AfterMove(s)))) == s
  {
    var d := s.facing;
    var back := RightOf(RightOf(d));
    OppositeDirection(d);
    var moved := AfterMove(s);
    assert moved == Placed(s.x + Delta(d).0, s.y + Delta(d).1, d);
    assert TurnAround(moved) == Placed(moved.x, moved.y, back);
    assert AfterMove(TurnAround(moved)) == Placed(s.x, s.y, back);
  }

  /** Two quarter turns face the opposite way, and two more face the start. */
  lemma OppositeDirection(d: Direction)
    ensures Delta(RightOf(RightOf(d))) == (-Delta(d).0, -Delta(d).1)
    ensures RightOf(RightOf(RightOf(RightOf(d)))) == d
  {
    match d
    case North => assert RightOf(North) == East && RightOf(East) == South && RightOf(South) == West && RightOf(West) == North;
    case East => assert RightOf(East) == South && RightOf(South) == West && RightOf(West) == North && RightOf(North) == East;
    case South => assert RightOf(South) == West && RightOf(West) == North && RightOf(North) == East && RightOf(East) == South;
    case West => assert RightOf(West) == North && RightOf(North) == East && RightOf(East) == South && RightOf(South) == West;
  }

  /** `n` consecutive moves. */
  function Moves(s: RobotState, n: nat): RobotState {
    if n == 0 then s else AfterMove(Moves(s, n - 1))
  }

  function Clamp(v: int): int {
    if v < 0 then 0 else if v >= TableSize then TableSize - 1 else v
  }

  /** The displacement along one axis after `n` unit steps of `dv` (-1, 0 or 1). */
  function Along(n: nat, dv: int): int {
    if dv < 0 then -(n as int) else if dv > 0 then n else 0
  }

  /** One more step along an axis, seen through `Clamp`: the clamped position
      advances by the step when that stays on the table, and stays otherwise. */
  lemma ClampStep(v: int, dv: int, n: nat)
    requires 0 <= v < TableSize && -1 <= dv <= 1
    ensures var c := Clamp(v + Along(n, dv));
      && 0 <= c < TableSize
      && (0 <= c + dv < TableSize ==> Clamp(v + Along(n + 1, dv)) == c + dv)
      && (!(0 <= c + dv < TableSize) ==> Clamp(v + Along(n + 1, dv)) == c)
  {
  }

  /** Repeated moves advance along the facing direction and stop at the edge of
      the table: each coordinate is the unbounded position clamped to the table. */
  lemma {:induction false} MovesStopAtEdge(s: RobotState, n: nat)
    requires s.Placed? && InBounds(s)
    ensures Moves(s, n) == Placed(Clamp(s.x + Along(n, Delta(s.facing).0)), Clamp(s.y + Along(n, Delta(s.facing).1)), s.facing)
  {
    if n > 0 {
      MovesStopAtEdge(s, n - 1);
      ClampStep(s.x, Delta(s.facing).0, n - 1);
      ClampStep(s.y, Delta(s.facing).1, n - 1);
    }
  }

  /** After TableSize - 1 moves the robot is at the edge it faces, and every
      further move is ignored. */
  lemma EdgeReachedAfterFourMoves(s: RobotState)
    requires s.Placed? && InBounds(s)
    ensures AfterMove(Moves(s, 4)) == Moves(s, 4)
  {
    MovesStopAtEdge(s, 4);
    MovesStopAtEdge(s, 5);
  }

  /** The report splits on commas into the decimal coordinates and the name. */
  lemma ReportFields(s: RobotState)
    requires s.Placed?
    ensures Split(ReportOf(s), ',') == [IntToString(s.x), IntToString(s.y), Name(s.facing)]
  {
    var fields := [IntToString(s.x), IntToString(s.y), Name(s.facing)];
    assert Join(fields[1..], ',') == IntToString(s.y) + "," + Name(s.facing);
    assert Join(fields, ',') == ReportOf(s);
    SplitJoin(fields, ',');
  }

  // ---------------------------------------------------------------------
  // The robot object
  // ---------------------------------------------------------------------

  class Robot {
    var x: Option<int>
    var y: Option<int>
    var direction: Option<Direction>

    /** The three fields are unset together, or set together on the table. */
    ghost predicate Valid()
      reads this
    {
      || (x.None? && y.None? && direction.None?)
      || (x.Some? && y.Some? && direction.Some? && IsValidPosition(x.value, y.value))
    }

    /** `_is_on_table`. */
    predicate IsOnTable()
      reads this
    {
      x.Some? && y.Some? && direction.Some?
    }

    /** The fields read as a `RobotState`. */
    function State(): (s: RobotState)
      reads this
      ensures s.Placed? <==> IsOnTable()
      ensures Valid() ==> InBounds(s)
    {
      if IsOnTable() then Placed(x.value, y.value, direction.value) else Unplaced
    }

    constructor ()
      ensures Valid() && State() == Unplaced
      ensures x == None && y == None && direction == None
    {
      x, y, direction := None, None, None;
    }

    method Place(x: int, y: int, direction: Direction)
      requires Valid()
      modifies this
      ensures Valid()
      ensures State() == AfterPlace(old(State()), x, y, direction)
    {
      if IsValidPosition(x, y) {
        this.x, this.y, this.direction := Some(x), Some(y), Some(direction);
      }
    }

    /** `_get_new_position`: the neighbouring cell along one axis, which is
        where `move` goes exactly when that cell is on the table. */
    function NewPosition(): (p: (int, int))
      reads this
      requires IsOnTable()
      ensures (p.0 == x.value) != (p.1 == y.value)
      ensures -1 <= p.0 - x.value <= 1 && -1 <= p.1 - y.value <= 1
      ensures IsValidPosition(p.0, p.1) <==> AfterMove(State()) != State()
      ensures IsValidPosition(p.0, p.1) ==> AfterMove(State()) == Placed(p.0, p.1, direction.value)
    {
      var (dx, dy) := Delta(direction.value);
      (x.value + dx, y.value + dy)
    }

    method Move()
      requires Valid()
      modifies this
      ensures Valid()
      ensures State() == AfterMove(old(State()))
    {
      if !IsOnTable() {
        return;
      }
      var (newX, newY) := NewPosition();
      if IsValidPosition(newX, newY) {
        x, y := Some(newX), Some(newY);
      }
    }

    method Left()
      requires Valid()
      modifies this
      ensures Valid()
      ensures State() == AfterLeft(old(State()))
    {
      if direction.Some? {
        direction := Some(LeftOf(direction.value));
      }
    }

    method Right()
      requires Valid()
      modifies this
      ensures Valid()
      ensures State() == AfterRight(old(State()))
    {
      if direction.Some? {
        direction := Some(RightOf(direction.value));
      }
    }

    method Report() returns (r: string)
      requires Valid()
      ensures r == ReportOf(State())
    {
      if IsOnTable() {
        r := IntToString(x.value) + "," + IntToString(y.value) + "," + Name(direction.value);
      } else {
        r := NotOnTable;
      }
    }
  }

  /** Placing at 1,2,EAST, moving and reporting gives "2,2,EAST". */
  method PlaceMoveReport() returns (r: string)
    ensures r == "2,2,EAST"
  {
    var robot := new Robot();
    robot.Place(1, 2, East);
    robot.Move();
    r := robot.Report();
  }

  /** A placement at -1,3 is ignored, so the robot is still not on the table. */
  method RejectedPlaceReport() returns (r: string)
    ensures r == NotOnTable
  {
    var robot := new Robot();
    robot.Place(-1, 3, North);
    r := robot.Report();
  }

  /** At 0,0 facing SOUTH a move is ignored; one LEFT from NORTH faces WEST. */
  method EdgeAndTurnReports() returns (r1: string, r2: string)
    ensures r1 == "0,0,SOUTH" && r2 == "0,0,WEST"
  {
    var robot := new Robot();
    robot.Place(0, 0, South);
    robot.Move();
    r1 := robot.Report();
    robot.Place(0, 0, North);
    robot.Left();
    r2 := robot.Report();
  }
}
