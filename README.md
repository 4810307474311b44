# Toy robot simulator

This project models the toy robot simulator in `mars_rover.py` and proves
properties about it. A single robot sits on a 5x5 table. It starts unplaced.
It is driven by text commands, one per line:

- `PLACE X,Y,F` puts it on a cell, facing NORTH, EAST, SOUTH or WEST.
- `MOVE` takes one step forward, but never off the table.
- `LEFT` and `RIGHT` turn it a quarter turn.
- `REPORT` prints its position and facing.

The project has four modules:

- `Wrappers` (`wrappers.dfy`) holds the `Option` type.
- `Strings` (`strings.dfy`) models the Python string built-ins the dispatcher relies on:
  - `str.split()` with no argument (`Words`);
  - `str.split(',')` (`Split`);
  - `str.upper()` (`Upper`);
  - `int()` on a string (`ParseInt`). Its digit loop (`ScanDigits`) reads the digits left to right, as CPython's conversion does. It builds the value as `10 * v + d`, takes an underscore only when a digit follows it, and counts the digits against the 4300-digit limit;
  - the decimal form of an `int` in an f-string (`IntToString`).
- `Rover` (`rover.dfy`) holds:
  - the `Direction` enum;
  - the robot's state as a value, `RobotState = Unplaced | Placed(x, y, facing)`;
  - one specification function per robot operation (`AfterPlace`, `AfterMove`, `AfterLeft`, `AfterRight`, `ReportOf`);
  - the `Robot` class. Its three optional fields are updated in place by `Place`, `Move`, `Left` and `Right`. Each of these methods keeps the class invariant `Valid()`: the fields are all unset, or all set with the position on the table. Each method's new state is the specification function applied to its old state.
- `Commands` (`commands.dfy`) holds:
  - `Dispatch`, the specification of one call of `process_command` on a robot state;
  - `ProcessCommand`, the method that drives a `Robot` object and is proved equal to `Dispatch`.

  A line that `process_command` prints is returned as `Some(line)`. `None` means it printed nothing.

Three details of `process_command` matter:

- PLACE with no argument word, or with more than one, does not print the PLACE diagnostic. The guard at mars_rover.py:72 fails, so the line falls through to `Invalid command: <line>`.
- The direction in a PLACE argument is upper-cased before the lookup, so `PLACE 1,2,east` is accepted.
- `int()` raises `ValueError` on a decimal string of more than 4300 digits, leading zeros included. That is the default limit of `sys.get_int_max_str_digits()` since Python 3.11. A PLACE argument with such a coordinate therefore prints the PLACE diagnostic.

## Model

| member | source | states |
|---|---|---|
| Rover.Index | mars_rover.py:4-8 | The enum value of a direction is in 0..3 |
| Rover.FromIndex | mars_rover.py:4-8 | `Direction(i)` gives the member whose value is `i` |
| Rover.Name | mars_rover.py:4-8 | A direction's name is one upper-case ASCII word with no comma |
| Rover.FromName | mars_rover.py:75 | `Direction[name]` finds only a member whose name is exactly `name` |
| Rover.FromNameOfName | mars_rover.py:75 | Looking a direction up by its own name finds it |
| Rover.RightOf | mars_rover.py:38 | `Direction((value + 1) % 4)`: the next direction clockwise, from WEST back to NORTH (no ensures; `RotationIsModular` proves the modular form) |
| Rover.LeftOf | mars_rover.py:33 | `Direction((value - 1) % 4)`: the next direction counter-clockwise, from NORTH back to WEST (no ensures; `RotationIsModular` proves the modular form) |
| Rover.RotationIsModular | mars_rover.py:30-38 | A right turn is value + 1 mod 4 and a left turn is value - 1 mod 4, with Python's `%` |
| Rover.TurnsAreInverse | mars_rover.py:30-38 | A left and a right quarter turn undo each other, in either order |
| Rover.RightTurnsIndex | mars_rover.py:35-38 | n right turns add n to the value, mod 4 |
| Rover.LeftTurnsIndex | mars_rover.py:30-33 | n left turns subtract n from the value, mod 4 |
| Rover.IndexDetermines | mars_rover.py:4-8 | Two directions with the same value are the same |
| Rover.FullTurn | mars_rover.py:30-38 | Any multiple of four turns the same way restores the facing |
| Rover.FullRightTurn | mars_rover.py:35-38 | A multiple of four right turns restores the facing |
| Rover.FullLeftTurn | mars_rover.py:30-33 | A multiple of four left turns restores the facing |
| Rover.Delta | mars_rover.py:54-59 | The displacement for a direction is a unit step along exactly one axis |
| Rover.DeltaOfRight | mars_rover.py:35-38 | A right turn rotates the displacement a quarter turn clockwise, (dx, dy) to (dy, -dx) |
| Rover.IsValidPosition | mars_rover.py:48-50 | `_is_valid_position`: holds exactly when `0 <= x < 5` and `0 <= y < 5` (a predicate without ensures) |
| Rover.AfterPlace | mars_rover.py:16-19 | place overwrites the state with the given one or leaves it alone, and never takes the robot off the table |
| Rover.PlaceOverwrites | mars_rover.py:16-19 | A placement on the table gives the placed state, whatever the robot was before |
| Rover.PlaceOffTableIgnored | mars_rover.py:16-19 | A placement off the table leaves the state unchanged |
| Rover.AfterMove | mars_rover.py:21-28 | move keeps the robot on the table and keeps its facing. If the position changes, it changes by exactly the facing's unit step |
| Rover.MoveBlockedIff | mars_rover.py:21-28 | A placed robot stays where it is exactly when the step ahead would leave the table |
| Rover.UnplacedIgnoresMotion | mars_rover.py:21-38 | move, left and right leave an unplaced robot unplaced |
| Rover.AfterLeft | mars_rover.py:30-33 | left keeps the position and the placed or unplaced state, and the new facing's value is the old one minus 1, mod 4 |
| Rover.AfterRight | mars_rover.py:35-38 | right keeps the position and the placed or unplaced state, and the new facing's value is the old one plus 1, mod 4 |
| Rover.TurnsCancel | mars_rover.py:30-38 | left then right, or right then left, gives back the same state |
| Rover.FourTurnsRestore | mars_rover.py:30-38 | Four lefts, or four rights, give back the same state |
| Rover.MoveUndone | mars_rover.py:21-38 | A move that changed the state is undone by turning around, moving and turning around again |
| Rover.OppositeDirection | mars_rover.py:35-38 | Two right turns reverse the displacement, and four right turns restore the facing |
| Rover.ClampStep | mars_rover.py:21-28 | One more step from the clamped position of n steps reaches the clamped position of n + 1 steps |
| Rover.MovesStopAtEdge | mars_rover.py:21-28 | n moves from a placed robot go n cells along its facing, stopping at the table's edge |
| Rover.EdgeReachedAfterFourMoves | mars_rover.py:21-28 | After four moves the robot is at the edge, and a further move changes nothing |
| Rover.ReportOf | mars_rover.py:40-42 | report returns the sentinel exactly when the robot is not on the table |
| Rover.ReportFields | mars_rover.py:40-42 | A report of a placed robot splits at commas into x, y and the direction's name |
| Rover.Robot.State | mars_rover.py:44-46 | The fields read as a placed state exactly when `_is_on_table` holds, and as an on-table state under the class invariant |
| Rover.Robot.IsOnTable | mars_rover.py:44-46 | `_is_on_table`: holds exactly when x, y and direction are all set (a predicate without ensures; `State` ties it to a placed state) |
| Rover.Robot.constructor | mars_rover.py:11-14 | A new robot has all three fields unset, so it is unplaced |
| Rover.Robot.Place | mars_rover.py:16-19 | place keeps the class invariant, and its new state is `AfterPlace` of the old one |
| Rover.Robot.NewPosition | mars_rover.py:52-61 | `_get_new_position` is a neighbouring cell, one unit away along exactly one axis. It is on the table exactly when `move` changes the state, and then `move` goes there |
| Rover.Robot.Move | mars_rover.py:21-28 | move keeps the class invariant, and its new state is `AfterMove` of the old one |
| Rover.Robot.Left | mars_rover.py:30-33 | left keeps the class invariant, and its new state is `AfterLeft` of the old one |
| Rover.Robot.Right | mars_rover.py:35-38 | right keeps the class invariant, and its new state is `AfterRight` of the old one |
| Rover.Robot.Report | mars_rover.py:40-42 | report returns `ReportOf` of the robot's state |
| Rover.PlaceMoveReport | mars_rover.py:16-42 | place(1, 2, EAST), move, report gives "2,2,EAST" |
| Rover.RejectedPlaceReport | mars_rover.py:16-19 | place(-1, 3, NORTH) then report gives the not-on-table sentinel |
| Rover.EdgeAndTurnReports | mars_rover.py:16-42 | A move south from 0,0 is ignored, and a left turn from NORTH faces WEST |
| Strings.IsSpace | mars_rover.py:65 | The separators of `str.split()`: exactly Python's `isspace` set, `\t` to `\r`, U+001C to U+0020, U+0085, U+00A0, U+1680, U+2000 to U+200A, U+2028, U+2029, U+202F, U+205F and U+3000 (a predicate without ensures) |
| Strings.WordLength | mars_rover.py:65 | The first word of a line ends at its first whitespace character |
| Strings.Words | mars_rover.py:65 | `command.split()` yields only non-empty words free of whitespace |
| Strings.WordsEmptyIffAllSpace | mars_rover.py:65-68 | A line splits into no words exactly when it is empty or all whitespace |
| Strings.WordLengthAtSpace | mars_rover.py:65 | A word ends at the first whitespace character after it |
| Strings.WordsAtSpace | mars_rover.py:65 | Splitting at a whitespace character splits the word list in two |
| Strings.WordsOfWord | mars_rover.py:65 | A single word splits into itself |
| Strings.WordsOfJoinWords | mars_rover.py:65 | Words joined by single spaces split back into the same words |
| Strings.Split | mars_rover.py:74 | `arg.split(',')` yields at least one field, and no field contains a comma |
| Strings.JoinSplit | mars_rover.py:74 | Joining the fields with commas gives back the argument |
| Strings.SplitPrefix | mars_rover.py:74 | A comma-free prefix belongs to the first field |
| Strings.SplitJoin | mars_rover.py:74 | Comma-free fields joined with commas split back into the same fields |
| Strings.ToUpperAscii | mars_rover.py:70 | Upper-casing an ASCII lower-case letter gives an ASCII upper-case letter |
| Strings.ToLowerAscii | mars_rover.py:70 | Lower-casing an ASCII upper-case letter gives the lower-case letter that upper-cases back to it |
| Strings.UpperChar | mars_rover.py:70 | The upper-case form of one character has one to three characters, none of them an ASCII lower-case letter, and an ASCII character other than a-z is kept as it is |
| Strings.Upper | mars_rover.py:70 | `str.upper()` output is at least as long as its input and holds no ASCII lower-case letter |
| Strings.UpperAppend | mars_rover.py:70 | Upper-casing distributes over concatenation |
| Strings.UpperIdempotent | mars_rover.py:70 | Upper-casing twice is the same as upper-casing once |
| Strings.UpperCharKept | mars_rover.py:70 | Every character that upper-casing produces is one that upper-casing keeps |
| Strings.UpperCharFixed | mars_rover.py:70 | Text made of characters that upper-casing keeps is unchanged by it |
| Strings.UpperIgnoresCase | mars_rover.py:70 | Any mix of upper- and lower-case spellings of an upper-case keyword upper-cases to that keyword |
| Strings.DigitValue | mars_rover.py:75 | A decimal digit has a value below 10 |
| Strings.DigitChar | mars_rover.py:42 | The digit for a value below 10 has that value |
| Strings.RemoveUnderscores | mars_rover.py:75 | Dropping the underscores from digit groups leaves only digits |
| Strings.ScanDigits | mars_rover.py:75 | The digit loop of `int()`: a digit is taken as it is, an underscore only when a digit follows it, and at the end the digit count is checked against 4300 (a definition without ensures; `ScanDigitsCorrect` is its proved property) |
| Strings.ScanDigitsCorrect | mars_rover.py:75 | Started after well-formed digit groups, with the value and count of their digits, the digit loop accepts exactly the strings that are digit groups of at most 4300 digits. It returns the value of their digits |
| Strings.ParseMagnitude | mars_rover.py:75 | The digit loop, started on a first digit, accepts an unsigned magnitude exactly when it is digit groups separated by single underscores, with at most 4300 digits. Its result is the value of those digits |
| Strings.ParseInt | mars_rover.py:75 | `int()` accepts exactly an optional sign followed by such a magnitude. The value is the magnitude's, negated after a minus sign |
| Strings.TooManyDigitsRejected | mars_rover.py:75-77 | `int()` rejects a digit string of more than 4300 digits, with or without a sign |
| Strings.NatToString | mars_rover.py:42 | The decimal form of a natural number is its digits, with no leading zero |
| Strings.IntToString | mars_rover.py:42 | The decimal form of an integer is an optional minus sign followed by digits |
| Strings.ParseIntToString | mars_rover.py:42-75 | `int()` reads the decimal form of any integer of at most 4300 digits back as that integer |
| Commands.ParsePlaceArgument | mars_rover.py:73-77 | The PLACE argument is accepted exactly when it has three comma-separated fields, both coordinates parse as integers and the upper-cased third field names a direction. The result's coordinates are `int()` of the first two fields, and its facing is the one named |
| Commands.Dispatch | mars_rover.py:63-87 | A command keeps the robot on the table, and a command that changes the state prints nothing |
| Commands.ProcessCommand | mars_rover.py:63-87 | `process_command` keeps the class invariant. The robot's new state and the line printed are `Dispatch` of the old state and the line |
| Commands.Run | mars_rover.py:94-99 | A sequence of lines keeps the robot on the table and prints at most one line per command |
| Commands.OtherOutputsDiffer | mars_rover.py:63-87 | No other line the dispatcher prints equals the no-command message |
| Commands.EmptyLineIff | mars_rover.py:65-68 | The no-command message is printed exactly for empty or all-whitespace lines, and such lines change nothing |
| Commands.WordedOutputs | mars_rover.py:70-87 | A line with a word prints nothing, the PLACE diagnostic, a report or the invalid-command message |
| Commands.KeywordLines | mars_rover.py:78-85 | MOVE, LEFT, RIGHT and REPORT, in any case, act on the robot and ignore every later word |
| Commands.PlaceLine | mars_rover.py:72-77 | PLACE with one argument word either places silently or prints the PLACE diagnostic and changes nothing |
| Commands.InvalidCommandLine | mars_rover.py:72-87 | PLACE with any other word count, and any unknown keyword, print "Invalid command: " and the raw line and change nothing |
| Commands.KeywordCaseInsensitive | mars_rover.py:70-85 | Lines that differ only in the letter case of the keyword drive the robot the same way, and print the same line unless they are invalid commands, which echo the raw line |
| Commands.ReportIsWord | mars_rover.py:40-42 | A report of a placed robot contains no whitespace |
| Commands.PlaceArgumentAnyCase | mars_rover.py:74-75 | With two coordinates that `int()` accepts, a direction field spelled in any mix of ASCII upper- and lower-case letters places the robot facing that direction at those coordinates |
| Commands.SplitThree | mars_rover.py:74 | Three comma-free fields joined by commas split back into exactly those fields |
| Commands.ParseReport | mars_rover.py:73-75 | A report of a state on the table, read as a PLACE argument, parses to exactly the reported state |
| Commands.OverlongCoordinateRejected | mars_rover.py:72-77 | PLACE with an x field of more than 4300 digits prints the PLACE diagnostic and changes nothing |
| Commands.PlaceReportRoundTrip | mars_rover.py:63-87 | "PLACE " followed by a report puts any robot into the reported state and prints nothing |
| Commands.WordsOfPlaceReport | mars_rover.py:65 | "PLACE " followed by a report splits into PLACE and the report |
| Commands.PlaceKeyword | mars_rover.py:70-72 | PLACE upper-cases to itself |
| Commands.KeywordAlone | mars_rover.py:65-70 | An upper-case keyword on its own splits into itself and upper-cases to itself |
| Commands.MoveLine | mars_rover.py:78-79 | The line MOVE moves the robot and prints nothing |
| Commands.LeftLine | mars_rover.py:80-81 | The line LEFT turns the robot left and prints nothing |
| Commands.ReportLine | mars_rover.py:84-85 | The line REPORT prints the report and changes nothing |
| Commands.UnknownLine | mars_rover.py:86-87 | The line FOO prints "Invalid command: FOO" and changes nothing |
| Commands.LowerCaseMoveLine | mars_rover.py:70-79 | The line "move" acts as MOVE |
| Commands.WordsOfPlace12 | mars_rover.py:65 | "PLACE 1,2" splits into two words |
| Commands.ParseOf12 | mars_rover.py:74-77 | "1,2" is rejected as a PLACE argument because it has only two fields |
| Commands.MissingDirectionLine | mars_rover.py:72-77 | "PLACE 1,2" prints the PLACE diagnostic and changes nothing |
| Commands.Place12EastText | mars_rover.py:40-42 | "PLACE " and the report of 1,2,EAST is "PLACE 1,2,EAST" |
| Commands.Place00NorthText | mars_rover.py:40-42 | "PLACE " and the report of 0,0,NORTH is "PLACE 0,0,NORTH" |
| Commands.Place12EastLine | mars_rover.py:72-77 | "PLACE 1,2,EAST" places any robot at 1,2 facing EAST, silently |
| Commands.Place00NorthLine | mars_rover.py:72-77 | "PLACE 0,0,NORTH" places any robot at 0,0 facing NORTH, silently |
| Commands.ReportsAfterScenarios | mars_rover.py:40-42 | The reports of 2,2,EAST and 0,0,WEST read "2,2,EAST" and "0,0,WEST" |
| Commands.PlaceMoveReportSession | mars_rover.py:63-87 | The lines PLACE 1,2,EAST, MOVE, REPORT print "2,2,EAST" |
| Commands.PlaceLeftReportSession | mars_rover.py:63-87 | The lines PLACE 0,0,NORTH, LEFT, REPORT print "0,0,WEST" |
| Commands.UnplacedSession | mars_rover.py:63-87 | On a new robot, REPORT prints the sentinel, "PLACE 1,2" prints the PLACE diagnostic and FOO is an invalid command |

## Left out

- IntToString: does not model the `ValueError` that formatting an integer of more than 4300 digits raises, because a report only ever formats coordinates 0 to 4.
- `main` (mars_rover.py:89-104) is not modelled: the banner, the input prompt, `strip()`, the `EXIT` check and the `KeyboardInterrupt` farewell. These are terminal I/O. `Run` models only the repeated calls of `process_command`.
- Printing is not modelled as an effect. The printed line is returned instead.
- `ParseInt` does not accept the non-ASCII decimal digits that `int()` accepts, such as Arabic-Indic digits. The 4300-digit limit is the default one; a program that changes it with `sys.set_int_max_str_digits` is not modelled, and neither are Python versions without the limit. `int()` also strips surrounding whitespace, but a field of a PLACE argument never holds whitespace, because the argument is already one whitespace-free word.
- `Upper` rewrites only the ASCII letters a-z and the characters whose Python upper-case form is all ASCII: dotless i, long s, sharp s and the ligatures U+FB00 to U+FB06. Every other character is kept as it is. Python maps such a character to text that still holds a non-ASCII character, so no comparison with a keyword or a direction name changes.
- The `Enum` machinery is modelled only as far as the source uses it: the member values, lookup by value and by name, and `.name`.
- The exception types caught in the PLACE branch (`ValueError`, `IndexError`, `KeyError`) are not told apart: every failure gives the same `None`, and the source prints the same diagnostic for each.
