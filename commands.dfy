/** `process_command`: a line is split into words, the upper-cased first word
    selects the action and the robot is driven through its methods. What the
    source prints is returned as the line printed, `None` when it prints
    nothing. */
module Commands {
  import opened Wrappers
  import opened Strings
  import opened Rover

  const NoCommand: string := "No command entered. Please try again."
  const InvalidPlace: string := "Invalid PLACE command. Format: PLACE X,Y,F"
  const InvalidCommandPrefix: string := "Invalid command: "

  datatype PlaceArgs = PlaceArgs(x: int, y: int, facing: Direction)

  /** The `try` block of the PLACE branch: `x, y, direction = arg.split(',')`,
      then `int(x)`, `int(y)` and `Direction[direction.upper()]`. `None` stands
      for the `ValueError` (wrong number of fields, not an integer) and
      `KeyError` (unknown direction) the block catches. */
  function ParsePlaceArgument(arg: string): (r: Option<PlaceArgs>)
    ensures r.Some? <==>
      && |Split(arg, ',')| == 3
      && ParseInt(Split(arg, ',')[0]).Some?
      && ParseInt(Split(arg, ',')[1]).Some?
      && FromName(Upper(Split(arg, ',')[2])).Some?
    ensures r.Some? ==> ParseInt(Split(arg, ',')[0]) == Some(r.value.x)
    ensures r.Some? ==> ParseInt(Split(arg, ',')[1]) == Some(r.value.y)
    ensures r.Some? ==> Upper(Split(arg, ',')[2]) == Name(r.value.facing)
  {
    var fields := Split(arg, ',');
    if |fields| != 3 then None
    else
      match (ParseInt(fields[0]), ParseInt(fields[1]), FromName(Upper(fields[2])))
      case (Some(x), Some(y), Some(d)) => Some(PlaceArgs(x, y, d))
      case _ => None
  }

  /** One call of `process_command` on a robot in state `s`: the new state and
      the line printed. */
  function Dispatch(s: RobotState, command: string): (r: (RobotState, Option<string>))
    ensures InBounds(s) ==> InBounds(r.0)
    ensures r.0 != s ==> r.1 == None
  {
    var parts := Words(command);
    if |parts| == 0 then (s, Some(NoCommand))
    else
      var action := Upper(parts[0]);
      if action == "PLACE" && |parts| == 2 then
        match ParsePlaceArgument(parts[1])
        case Some(p) => (AfterPlace(s, p.x, p.y, p.facing), None)
        case None => (s, Some(InvalidPlace))
      else if action == "MOVE" then (AfterMove(s), None)
      else if action == "LEFT" then (AfterLeft(s), None)
      else if action == "RIGHT" then (AfterRight(s), None)
      else if action == "REPORT" then (s, Some(ReportOf(s)))
      else (s, Some(InvalidCommandPrefix + command))
  }

  /** `process_command(robot, command)`. */
  method ProcessCommand(robot: Robot, command: string) returns (printed: Option<string>)
    requires robot.Valid()
    modifies robot
    ensures robot.Valid()
    ensures (robot.State(), printed) == Dispatch(old(robot.State()), command)
  {
    var parts := Words(command);
    if |parts| == 0 {
      return Some(NoCommand);
    }
    var action := Upper(parts[0]);
    if action == "PLACE" && |parts| == 2 {
      var fields := Split(parts[1], ',');
      if |fields| == 3 {
        var x, y, direction := ParseInt(fields[0]), ParseInt(fields[1]), FromName(Upper(fields[2]));
        if x.Some? && y.Some? && direction.Some? {
          robot.Place(x.value, y.value, direction.value);
          return None;
        }
      }
      printed := Some(InvalidPlace);
    } else if action == "MOVE" {
      robot.Move();
      printed := None;
    } else if action == "LEFT" {
      robot.Left();
      printed := None;
    } else if action == "RIGHT" {
      robot.Right();
      printed := None;
    } else if action == "REPORT" {
      var report := robot.Report();
      printed := Some(report);
    } else {
      printed := Some(InvalidCommandPrefix + command);
    }
  }

  /** A sequence of lines given to `process_command` one after another: the
      final state and the lines printed, in order. */
  function Run(s: RobotState, lines: seq<string>): (r: (RobotState, seq<string>))
    ensures InBounds(s) ==> InBounds(r.0)
    ensures |r.1| <= |lines|
    decreases |lines|
  {
    if lines == [] then (s, [])
    else
      var (next, printed) := Dispatch(s, lines[0]);
      var (final, rest) := Run(next, lines[1..]);
      (final, (if printed.Some? then [printed.value] else []) + rest)
  }

  // ---------------------------------------------------------------------
  // Properties of the dispatcher
  // ---------------------------------------------------------------------

  /** No other line the dispatcher prints reads as the "no command" diagnostic. */
  lemma OtherOutputsDiffer(s: RobotState, command: string)
    ensures InvalidPlace != NoCommand
    ensures InvalidCommandPrefix + command != NoCommand
    ensures ReportOf(s) != NoCommand
  {
    assert InvalidPlace[0] != NoCommand[0];
    assert (InvalidCommandPrefix + command)[0] != NoCommand[0];
    if s.Placed? {
      assert ',' !in NoCommand;
      assert ReportOf(s)[|IntToString(s.x)|] == ',';
    } else {
      assert NotOnTable[0] != NoCommand[0];
    }
  }

  /** The "no command" diagnostic is printed exactly for empty or all-whitespace
      lines, and such a line leaves the robot as it was. */
  lemma EmptyLineIff(s: RobotState, command: string)
    ensures Dispatch(s, command).1 == Some(NoCommand) <==> AllSpace(command)
    ensures AllSpace(command) ==> Dispatch(s, command).0 == s
  {
    WordsEmptyIffAllSpace(command);
    if !AllSpace(command) {
      OtherOutputsDiffer(s, command);
      WordedOutputs(s, command);
    }
  }

  /** What a line with at least one word can print. */
  lemma WordedOutputs(s: RobotState, command: string)
    requires |Words(command)| >= 1
    ensures var out := Dispatch(s, command).1;
      out == None || out == Some(InvalidPlace) || out == Some(ReportOf(s)) ||
      out == Some(InvalidCommandPrefix + command)
  {
  }

  /** MOVE, LEFT, RIGHT and REPORT, in any letter case, act on the robot and
      ignore every word after the keyword. */
  lemma KeywordLines(s: RobotState, command: string)
    requires |Words(command)| >= 1
    ensures Upper(Words(command)[0]) == "MOVE" ==> Dispatch(s, command) == (AfterMove(s), None)
    ensures Upper(Words(command)[0]) == "LEFT" ==> Dispatch(s, command) == (AfterLeft(s), None)
    ensures Upper(Words(command)[0]) == "RIGHT" ==> Dispatch(s, command) == (AfterRight(s), None)
    ensures Upper(Words(command)[0]) == "REPORT" ==> Dispatch(s, command) == (s, Some(ReportOf(s)))
  {
  }

  /** PLACE with exactly one argument word either places (silently, even when
      the placement is off the table and therefore ignored) or prints the PLACE
      diagnostic and leaves the robot as it was. */
  lemma PlaceLine(s: RobotState, command: string)
    requires |Words(command)| == 2 && Upper(Words(command)[0]) == "PLACE"
    ensures ParsePlaceArgument(Words(command)[1]).Some? ==>
      var p := ParsePlaceArgument(Words(command)[1]).value;
      Dispatch(s, command) == (AfterPlace(s, p.x, p.y, p.facing), None)
    ensures ParsePlaceArgument(Words(command)[1]).None? ==>
      Dispatch(s, command) == (s, Some(InvalidPlace))
  {
  }

  /** PLACE with no argument word or with more than one, and every keyword that
      is not one of the five, print "Invalid command: " and the raw line and
      leave the robot as it was. */
  lemma InvalidCommandLine(s: RobotState, command: string)
    requires |Words(command)| >= 1
    requires var action := Upper(Words(command)[0]);
      || (action == "PLACE" && |Words(command)| != 2)
      || (action != "PLACE" && action != "MOVE" && action != "LEFT" && action != "RIGHT" && action != "REPORT")
    ensures Dispatch(s, command) == (s, Some(InvalidCommandPrefix + command))
  {
  }

  /** Keywords are matched ignoring case: two lines whose words agree except
      for the letter case of the keyword drive the robot the same way. */
  lemma KeywordCaseInsensitive(s: RobotState, c1: string, c2: string)
    requires |Words(c1)| >= 1 && |Words(c2)| == |Words(c1)|
    requires Upper(Words(c1)[0]) == Upper(Words(c2)[0])
    requires Words(c1)[1..] == Words(c2)[1..]
    ensures Dispatch(s, c1).0 == Dispatch(s, c2).0
    ensures var action := Upper(Words(c1)[0]);
      || (action == "PLACE" && |Words(c1)| == 2)
      || action == "MOVE" || action == "LEFT" || action == "RIGHT" || action == "REPORT"
      ==> Dispatch(s, c1).1 == Dispatch(s, c2).1
  {
    if |Words(c1)| == 2 {
      assert Words(c1)[1] == Words(c1)[1..][0];
    }
  }

  /** A report contains no whitespace, so it is one word. */
  lemma ReportIsWord(s: RobotState)
    requires s.Placed?
    ensures IsWord(ReportOf(s))
  {
    var r := ReportOf(s);
    var a, b := IntToString(s.x), IntToString(s.y);
    forall i | 0 <= i < |r| ensures !IsSpace(r[i]) {
      if i < |a| {
        assert r[i] == a[i];
      } else if i == |a| || i == |a| + 1 + |b| {
        assert r[i] == ',';
      } else if i < |a| + 1 + |b| {
        assert r[i] == b[i - |a| - 1];
      } else {
        assert r[i] == Name(s.facing)[i - |a| - 2 - |b|];
      }
    }
  }

  /** A report read back as the argument of PLACE: the coordinates and the
      direction parse to exactly the reported state. */
  lemma ParseReport(s: RobotState)
    requires s.Placed? && InBounds(s)
    ensures ParsePlaceArgument(ReportOf(s)) == Some(PlaceArgs(s.x, s.y, s.facing))
  {
    var fields := Split(ReportOf(s), ',');
    ReportFields(s);
    ParseIntToString(s.x);
    ParseIntToString(s.y);
    UpperIgnoresCase(Name(s.facing), Name(s.facing));
    FromNameOfName(s.facing);
    assert ParseInt(fields[0]) == Some(s.x);
    assert ParseInt(fields[1]) == Some(s.y);
    assert FromName(Upper(fields[2])) == Some(s.facing);
  }

  /** The direction field is matched in any mix of ASCII letter case: with
      valid coordinates, "north", "North" and "NORTH" all place the robot
      facing NORTH. */
  lemma PlaceArgumentAnyCase(a: string, b: string, f: string, d: Direction)
    requires ParseInt(a).Some? && ParseInt(b).Some?
    requires |f| == |Name(d)|
    requires forall i :: 0 <= i < |f| ==> f[i] == Name(d)[i] || f[i] == ToLowerAscii(Name(d)[i])
    ensures ParsePlaceArgument(a + "," + b + "," + f) == Some(PlaceArgs(ParseInt(a).value, ParseInt(b).value, d))
  {
    assert ',' !in a && ',' !in b;
    assert ',' !in f by {
      assert forall i :: 0 <= i < |f| ==> IsUpperAscii(f[i]) || IsLowerAscii(f[i]);
    }
    SplitThree(a, b, f);
    UpperIgnoresCase(f, Name(d));
    FromNameOfName(d);
  }

  /** Three comma-free fields joined by commas split back into themselves. */
  lemma SplitThree(a: string, b: string, f: string)
    requires ',' !in a && ',' !in b && ',' !in f
    ensures Split(a + "," + b + "," + f, ',') == [a, b, f]
  {
    var fields := [a, b, f];
    assert Join(fields[1..], ',') == b + "," + f;
    assert Join(fields, ',') == a + "," + b + "," + f;
    SplitJoin(fields, ',');
  }

  /** A coordinate of more digits than `int()` converts makes the PLACE
      argument fail, even with leading zeros: the PLACE diagnostic is printed
      and nothing changes. */
  lemma OverlongCoordinateRejected(s: RobotState, command: string)
    requires |Words(command)| == 2 && Upper(Words(command)[0]) == "PLACE"
    requires var fields := Split(Words(command)[1], ',');
      AllDigits(fields[0]) && |fields[0]| > MaxStrDigits
    ensures Dispatch(s, command) == (s, Some(InvalidPlace))
  {
    TooManyDigitsRejected(Split(Words(command)[1], ',')[0]);
    PlaceLine(s, command);
  }

  /** Round trip: "PLACE " followed by a report puts any robot, wherever it
      was, into the reported state, and prints nothing. */
  lemma PlaceReportRoundTrip(s: RobotState, t: RobotState)
    requires s.Placed? && InBounds(s)
    ensures Dispatch(t, "PLACE " + ReportOf(s)) == (s, None)
  {
    var command := "PLACE " + ReportOf(s);
    WordsOfPlaceReport(s);
    PlaceKeyword();
    ParseReport(s);
    PlaceLine(t, command);
  }

  /** "PLACE " followed by a report is two words, the first of them PLACE. */
  lemma WordsOfPlaceReport(s: RobotState)
    requires s.Placed?
    ensures Words("PLACE " + ReportOf(s)) == ["PLACE", ReportOf(s)]
  {
    var ws := ["PLACE", ReportOf(s)];
    ReportIsWord(s);
    assert IsWord(ws[0]);
    assert JoinWords(ws) == "PLACE " + ReportOf(s);
    WordsOfJoinWords(ws);
  }

  lemma PlaceKeyword()
    ensures Upper("PLACE") == "PLACE"
  {
    KeywordAlone("PLACE");
  }

  // ---------------------------------------------------------------------
  // Single lines and sessions
  // ---------------------------------------------------------------------

  /** An upper-case keyword on its own splits into itself and upper-cases to itself. */
  lemma KeywordAlone(k: string)
    requires IsWord(k) && forall i :: 0 <= i < |k| ==> IsUpperAscii(k[i])
    ensures Words(k) == [k] && Upper(k) == k
  {
    UpperIgnoresCase(k, k);
    WordsOfWord(k);
  }

  lemma MoveLine(s: RobotState)
    ensures Dispatch(s, "MOVE") == (AfterMove(s), None)
  {
    KeywordAlone("MOVE");
    KeywordLines(s, "MOVE");
  }

  lemma LeftLine(s: RobotState)
    ensures Dispatch(s, "LEFT") == (AfterLeft(s), None)
  {
    KeywordAlone("LEFT");
    KeywordLines(s, "LEFT");
  }

  lemma ReportLine(s: RobotState)
    ensures Dispatch(s, "REPORT") == (s, Some(ReportOf(s)))
  {
    KeywordAlone("REPORT");
    KeywordLines(s, "REPORT");
  }

  /** FOO is not a command. */
  lemma UnknownLine(s: RobotState)
    ensures Dispatch(s, "FOO") == (s, Some("Invalid command: FOO"))
  {
    KeywordAlone("FOO");
    InvalidCommandLine(s, "FOO");
    assert InvalidCommandPrefix + "FOO" == "Invalid command: FOO";
  }

  /** Keywords are matched ignoring case: "move" is MOVE. */
  lemma LowerCaseMoveLine(s: RobotState)
    ensures Dispatch(s, "move") == (AfterMove(s), None)
  {
    WordsOfWord("move");
    UpperIgnoresCase("move", "MOVE");
  }

  lemma WordsOfPlace12()
    ensures Words("PLACE 1,2") == ["PLACE", "1,2"]
  {
    assert IsWord("PLACE") && IsWord("1,2");
    assert JoinWords(["PLACE", "1,2"]) == "PLACE 1,2";
    WordsOfJoinWords(["PLACE", "1,2"]);
  }

  lemma ParseOf12()
    ensures ParsePlaceArgument("1,2") == None
  {
    assert Join(["1", "2"], ',') == "1,2";
    SplitJoin(["1", "2"], ',');
  }

  /** PLACE 1,2 lacks the direction: the PLACE diagnostic, nothing changes. */
  lemma MissingDirectionLine(s: RobotState)
    ensures Dispatch(s, "PLACE 1,2") == (s, Some(InvalidPlace))
  {
    WordsOfPlace12();
    PlaceKeyword();
    ParseOf12();
    PlaceLine(s, "PLACE 1,2");
  }

  lemma Place12EastText()
    ensures "PLACE " + ReportOf(Placed(1, 2, East)) == "PLACE 1,2,EAST"
  {
    assert ReportOf(Placed(1, 2, East)) == "1,2,EAST";
  }

  lemma Place00NorthText()
    ensures "PLACE " + ReportOf(Placed(0, 0, North)) == "PLACE 0,0,NORTH"
  {
    assert ReportOf(Placed(0, 0, North)) == "0,0,NORTH";
  }

  /** PLACE 1,2,EAST on any robot. */
  lemma Place12EastLine(t: RobotState)
    ensures Dispatch(t, "PLACE 1,2,EAST") == (Placed(1, 2, East), None)
  {
    PlaceReportRoundTrip(Placed(1, 2, East), t);
    Place12EastText();
  }

  /** PLACE 0,0,NORTH on any robot. */
  lemma Place00NorthLine(t: RobotState)
    ensures Dispatch(t, "PLACE 0,0,NORTH") == (Placed(0, 0, North), None)
  {
    PlaceReportRoundTrip(Placed(0, 0, North), t);
    Place00NorthText();
  }

  lemma ReportsAfterScenarios()
    ensures ReportOf(Placed(2, 2, East)) == "2,2,EAST"
    ensures ReportOf(Placed(0, 0, West)) == "0,0,WEST"
  {
  }

  /** PLACE 1,2,EAST, MOVE, REPORT prints "2,2,EAST". */
  method PlaceMoveReportSession() returns (printed: Option<string>)
    ensures printed == Some("2,2,EAST")
  {
    var robot := new Robot();
    Place12EastLine(robot.State());
    var placing := ProcessCommand(robot, "PLACE 1,2,EAST");
    MoveLine(robot.State());
    var moving := ProcessCommand(robot, "MOVE");
    ReportLine(robot.State());
    ReportsAfterScenarios();
    printed := ProcessCommand(robot, "REPORT");
  }

  /** PLACE 0,0,NORTH, LEFT, REPORT prints "0,0,WEST". */
  method PlaceLeftReportSession() returns (printed: Option<string>)
    ensures printed == Some("0,0,WEST")
  {
    var robot := new Robot();
    Place00NorthLine(robot.State());
    var placing := ProcessCommand(robot, "PLACE 0,0,NORTH");
    LeftLine(robot.State());
    var turning := ProcessCommand(robot, "LEFT");
    ReportLine(robot.State());
    ReportsAfterScenarios();
    printed := ProcessCommand(robot, "REPORT");
  }

  /** Before any placement REPORT prints the sentinel, a PLACE without a
      direction prints the PLACE diagnostic, and FOO is an unknown command. */
  method UnplacedSession() returns (first: Option<string>, second: Option<string>, third: Option<string>)
    ensures first == Some(NotOnTable)
    ensures second == Some(InvalidPlace)
    ensures third == Some("Invalid command: FOO")
  {
    var robot := new Robot();
    ReportLine(Unplaced);
    first := ProcessCommand(robot, "REPORT");
    MissingDirectionLine(Unplaced);
    second := ProcessCommand(robot, "PLACE 1,2");
    UnknownLine(Unplaced);
    third := ProcessCommand(robot, "FOO");
  }
}
