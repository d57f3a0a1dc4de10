# Robozzle core in Dafny

This project models the execution core of a Robozzle-style puzzle game. In the game the player
writes up to a few *functions*, each a list of instructions. The instructions are step forward,
turn left, turn right, call a function, do nothing, or a colour conditional that wraps one inner
instruction. A small interpreter runs the program one instruction per timer tick. It drives a
robot across a grid of coloured tiles, some of which hold stars. A level is solved when every
star has been collected.

The model covers the following:

- **Instructions and headings** (`controls.dfy`, `tile.dfy`): the recursive `Instruction`
  datatype, the four headings with their turns, unit offsets and case-insensitive parsing, tile
  colours and `Tile::new`.
- **Grid** (`grid.dfy`): a row-major board of optional tiles. Lookups never fault, and
  `set_tile_at` writes in place.
- **Robot** (`robot.dfy`): the current pose and the start pose it returns to.
- **Execution engine** (`engine.dfy`): program counter, call stack, run flags, single step and
  the speed cycle. Each operation is a value function on `EngineData`, and a method of the
  `ExecutionEngine` class is proved equal to it.
- **Interpreter** (`interpreter.dfy`): the skip loop of `execution_system`, the recursive
  `execute_instruction`, and the star bookkeeping systems. Each is stated as a value function,
  and the in-place methods are proved to compute it.
- **Level files and progress records** (`level.dfy`): the line-oriented level parser
  (`LEVEL`, `SIZE`, `ROBOT`, `FUNCTIONS`, `GRID:`), the star count, and `ProblemState`.
- **Level manager** (`level_manager.dfy`): tutorial and normal level sets, per-level progress
  maps, tutorial gating, the "all completed" folds, level-file selection and numeric ordering,
  and the report file name.
- **Level switching** (`level_systems.dfy`): how the grid, its stars and the robot are rebuilt
  when the player changes level or play starts.
- **Editor slot operations** (`editor.dfy`): colour wrapping and unwrapping, padding a function
  with `Noop`, the effect of a click on a slot, clearing all functions, and resetting a level.
- **Player name** (`player.dfy`): `parse_full_name`.
- **Support modules**: `wrappers.dfy` holds `Option`/`Result`. `text.dfy` holds the Rust string
  operations the game relies on: `trim`, `split_whitespace`, `join`, ASCII `to_uppercase`,
  `replace(" ", "_")`, and `parse` for `usize` and `i32`.

Entities that the source updates in place are classes: `Robot`, `Grid`, `ExecutionEngine` and
`LevelManager`. `Robot`, `Grid` and `ExecutionEngine` expose a `Data()` value.
`ExecutionEngine`'s methods, and `Robot`'s turns and reset, state the new `Data()` as a value
function of the old one, and the properties are proved about those value functions.
`Robot.MoveForward`, `Grid.SetTileAt` and the `LevelManager` methods state each field they
change and that the rest is kept; `Grid.SetTileAt` states its write by reading back through
`GetTileAt`.

## Model

| member | source | states |
|---|---|---|
| Controls.Instruction.ConditionColor | src/systems/ui.rs:1061-1068 | Some colour exactly for the conditionals: Red, Green and Blue for their own variants, None otherwise |
| Controls.Direction.TurnLeft | src/structs/controls.rs:23-30 | a quarter turn never returns the same heading, and turning right undoes it |
| Controls.Direction.TurnRight | src/structs/controls.rs:32-39 | a quarter turn never returns the same heading |
| Controls.Direction.Offset | src/structs/controls.rs:41-48 | always a unit step, with one component ±1 and the other 0; North alone is (0, -1), so y decreases going north |
| Controls.TurnsAreInverse | src/structs/controls.rs:23-39 | turn_right(turn_left(d)) == d and turn_left(turn_right(d)) == d |
| Controls.FourTurnsAreIdentity | src/structs/controls.rs:23-39 | four turns the same way give the original heading; one, two or three never do |
| Controls.OppositeOffset | src/structs/controls.rs:32-48 | the opposite heading's offset is the negated offset; two left turns equal two right turns |
| Controls.FromStr | src/structs/controls.rs:51-59 | a Some result means the upper-cased input is a spelling of that heading; None means it spells no heading |
| Controls.FromStrIgnoresCase | src/structs/controls.rs:51-59 | parsing a string and parsing its upper-case form agree |
| Controls.FromStrAcceptsSpellings | src/structs/controls.rs:51-59 | every word whose upper-case form is one of NORTH/N, EAST/E, SOUTH/S, WEST/W parses to that heading |
| Tiles.NewTile | src/structs/tile.rs:13-21 | stores x, y, colour and star flag unchanged, with the star not yet collected |
| Tiles.ColorFromChar | src/structs/tile.rs:36-42 | R, G and B give Red, Green and Blue, each iff; every other character gives Gray |
| Grids.GridData.IsInBounds | src/components/grid.rs:37-39 | true iff 0 <= x < width and 0 <= y < height, and then the row-major index lies inside width × height |
| Grids.GridData.GetIndex | src/components/grid.rs:42-48 | Some exactly when in bounds, and then y*width+x |
| Grids.GridData.GetTileAt | src/components/grid.rs:12-18 | None out of bounds; inside, tiles[y*width+x] when that index exists, and None past the end of tiles |
| Grids.GridData.IsValidPosition | src/components/grid.rs:28-34 | true iff in bounds and a tile is present there |
| Grids.GridData.MutTileIndex | src/components/grid.rs:20-26 | the mutable lookup lends the same present tile that get_tile_at reads, at get_index's index |
| Grids.RowMajorInjective | src/components/grid.rs:16 | two in-bounds positions with the same row-major index are the same position |
| Grids.Grid.SetTileAt | src/components/grid.rs:51-57 | replaces only index y*width+x, and only when in bounds and inside tiles; the length never changes; afterwards get_tile_at there returns the new tile and every other position reads as before |
| Grids.Grid.constructor | src/systems/level.rs:91-95 | the grid holds the given dimensions and tiles |
| Robots.Robot.constructor | src/components/robot.rs:15-24 | the start pose equals the initial pose |
| Robots.Robot.ResetToStart | src/components/robot.rs:26-30 | the pose becomes the start pose, and the start pose is kept |
| Robots.Robot.MoveForward | src/components/robot.rs:32-36 | adds the heading's offset to (x, y); heading and start pose unchanged |
| Robots.Robot.TurnLeft | src/components/robot.rs:38-40 | only the heading changes, by a left turn |
| Robots.Robot.TurnRight | src/components/robot.rs:42-44 | only the heading changes, by a right turn |
| Robots.TurnRoundTrip | src/components/robot.rs:38-44 | a left turn then a right turn, or the reverse, leaves the whole robot unchanged |
| Robots.ResetRestoresStart | src/components/robot.rs:26-30 | reset puts the robot on its start pose, keeps the start pose, and is idempotent |
| Engine.ExecutionSpeed.DurationMillis | src/resources/execution.rs:24-30 | every speed has a positive step duration of at most 500 ms |
| Engine.ExecutionSpeed.Next | src/resources/execution.rs:32-38 | next is always another speed, and it is faster unless the speed was already the fastest |
| Engine.ExecutionSpeed.Label | src/resources/execution.rs:40-46 | Normal shows "x1", Fast "x2" and VeryFast "x5" |
| Engine.SpeedCycle | src/resources/execution.rs:32-38 | three presses return to the same speed; one or two never do |
| Engine.StartExecutionResets | src/resources/execution.rs:65-73 | executing, not paused, pc (0, 0), empty stack, no error; speed and single step kept |
| Engine.StopResets | src/resources/execution.rs:83-90 | not executing, not paused, pc (0, 0), empty stack, no error; stopping twice is stopping once |
| Engine.SetErrorDiscardsMessage | src/resources/execution.rs:89-95 | set_error is exactly stop, so no error message is retained |
| Engine.PauseAndResume | src/resources/execution.rs:75-128 | pause and resume change only the paused flag; is_executing holds iff executing and not paused; resume undoes pause |
| Engine.CallPushesFrame | src/resources/execution.rs:158-164 | a call pushes the caller's (function, instruction), grows the stack by one, and jumps to (f, 0) |
| Engine.ReturnUndoesCall | src/resources/execution.rs:158-175 | returning right after a call gives back the caller's stack, one past the call, and reports success |
| Engine.ReturnOnEmptyStackStops | src/resources/execution.rs:166-175 | a return succeeds iff the stack is non-empty; otherwise it is a stop; a successful return pops exactly one frame |
| Engine.TickIdleWhenNotExecuting | src/resources/execution.rs:130-143 | without execution a tick changes nothing and reports nothing due |
| Engine.TickWhileExecuting | src/resources/execution.rs:130-143 | a pending single step is due whatever the timer does, and it clears the flag and pauses; otherwise the timer decides and nothing changes |
| Engine.SingleStepRunsOnce | src/resources/execution.rs:130-143 | after a single step the next tick reports nothing due, whatever the timer does |
| Engine.ExecutionEngine.constructor | src/resources/execution.rs:50-63 | stopped at (0, 0), Normal speed, empty stack, no error, no single step |
| Engine.ExecutionEngine.StartExecution | src/resources/execution.rs:65-73 | the new state is the start_execution value |
| Engine.ExecutionEngine.Pause | src/resources/execution.rs:75-77 | the new state is the pause value |
| Engine.ExecutionEngine.Resume | src/resources/execution.rs:79-81 | the new state is the resume value |
| Engine.ExecutionEngine.Stop | src/resources/execution.rs:83-90 | the new state is the stop value |
| Engine.ExecutionEngine.SetError | src/resources/execution.rs:92-95 | the new state is set_error's value, which is a stop |
| Engine.ExecutionEngine.GetError | src/resources/execution.rs:97-99 | the stored message |
| Engine.ExecutionEngine.ClearError | src/resources/execution.rs:101-103 | only the message is cleared |
| Engine.ExecutionEngine.ChangeSpeed | src/resources/execution.rs:105-112 | the speed moves to its successor |
| Engine.ExecutionEngine.IsExecuting | src/resources/execution.rs:118-120 | executing and not paused |
| Engine.ExecutionEngine.IsPaused | src/resources/execution.rs:122-124 | the paused flag |
| Engine.ExecutionEngine.IsStopped | src/resources/execution.rs:126-128 | not executing |
| Engine.ExecutionEngine.Tick | src/resources/execution.rs:130-143 | state and answer are the tick value of the old state |
| Engine.ExecutionEngine.AdvanceInstruction | src/resources/execution.rs:154-156 | the instruction index grows by one |
| Engine.ExecutionEngine.CallFunction | src/resources/execution.rs:158-164 | the new state is the call value |
| Engine.ExecutionEngine.ReturnFromFunction | src/resources/execution.rs:166-175 | state and success are the return value of the old state |
| Engine.ExecutionEngine.SetSingleStep | src/resources/execution.rs:177-179 | only the single-step flag changes |
| Interpreter.Chase | src/systems/execution.rs:45-94 | the skip loop ends, by the measure (stack depth, instructions left); a missing function halts with a stop; when it hands over an instruction, that is the instruction at the pc, it is not a mismatched conditional, and the engine has only moved its pc and popped frames |
| Interpreter.SkipIsFree | src/systems/execution.rs:65-93 | a mismatched top-level conditional only advances the pc, and robot and grid are untouched |
| Interpreter.EndOfFunctionReturns | src/systems/execution.rs:56-61 | past the end of a function the loop resumes one past the caller's call, or stops when there is no caller |
| Interpreter.CollectStar | src/systems/execution.rs:139-146 | reports a star exactly when the tile there holds an uncollected one, and then marks only that tile collected |
| Interpreter.Execute | src/systems/execution.rs:116-251 | at most one move (a step, a quarter turn or none); the star it reports is the only grid change; the engine either advances by one or calls an existing function; an error is off-the-puzzle or a missing function |
| Interpreter.ForwardOutcome | src/systems/execution.rs:126-148 | Forward fails iff the square ahead is not a valid position; otherwise the robot steps by the offset and the pc advances by one, with the stack kept |
| Interpreter.CallOutcome | src/systems/execution.rs:162-181 | CallFunction(i) succeeds iff i < |functions|: it jumps to (i, 0), pushes the caller without advancing it, and leaves robot and grid alone; otherwise it reports the missing function |
| Interpreter.NestedMismatchConsumesStep | src/systems/execution.rs:183-201 | a matched outer conditional whose inner conditional does not match still uses up the tick, only advancing the pc |
| Interpreter.SystemStep | src/systems/execution.rs:13-114 | one tick leaves the grid alone when it reports no star, and otherwise only marks the reported star collected |
| Interpreter.AtMostOneMovePerTick | src/systems/execution.rs:95-112 | a tick moves the robot at most once, or sends it back to its start after a fault |
| Interpreter.FaultResetsRobot | src/systems/execution.rs:104-111 | a faulting instruction stops the engine, keeps no message, returns the robot to its start pose and leaves the grid |
| Interpreter.MissingFunctionStops | src/systems/execution.rs:49-52 | a pc in a function that does not exist stops the engine, and nothing is executed |
| Interpreter.TickOnlyCollectsStars | src/systems/execution.rs:126-148 | a tick never uncollects a star nor changes the grid's shape, and it reports exactly the star it collects |
| Interpreter.StarRecordedOnlyCollects | src/systems/execution.rs:139-146 | collecting one star changes only that tile's collected flag, from false to true |
| Interpreter.CollectedStars | src/systems/execution.rs:267-272 | never more than the level's star tiles |
| Interpreter.CollectingCountsOne | src/systems/execution.rs:139-146 | collecting an uncollected star raises the collected count by exactly one |
| Interpreter.TickCountsItsStar | src/systems/execution.rs:13-114 | a tick that reports a star raises the count by one; any other tick leaves it unchanged |
| Interpreter.ExecuteInstruction | src/systems/execution.rs:116-251 | in-place execution yields exactly Execute's world and star, and leaves everything unchanged on error |
| Interpreter.ExecuteForward | src/systems/execution.rs:126-148 | the in-place Forward arm yields exactly Execute's outcome for Forward |
| Interpreter.ExecuteConditional | src/systems/execution.rs:183-245 | on the matching colour it runs the inner instruction; otherwise it only advances the pc |
| Interpreter.ExecutionSystem | src/systems/execution.rs:13-114 | engine, robot, grid and the reported star are exactly SystemStep's, for the current level's program |
| Interpreter.StepProgram | src/systems/execution.rs:45-113 | the skip loop and then the instruction it stops at, exactly as RunProgram |
| Interpreter.StepInstruction | src/systems/execution.rs:95-112 | keeps an instruction's effect, or reports the error and resets the robot, exactly as RunInstruction |
| Interpreter.SkipLoop | src/systems/execution.rs:45-94 | the loop changes only the engine, and ends in Chase's state with Chase's instruction |
| Interpreter.CountStars | src/systems/execution.rs:274-282 | the record holds the recount, and it becomes completed iff it was completed or the count reached the total; nothing else changes |
| Interpreter.CountStarsIdempotent | src/systems/execution.rs:260-286 | recounting with the same grid again changes nothing, so events after the first are redundant |
| Interpreter.UpdateStarCounterSystem | src/systems/execution.rs:254-287 | with an event, a current level and its record, the record is recounted and the engine stops at the total; otherwise nothing changes |
| Interpreter.RecordCompletion | src/systems/execution.rs:321-330 | stores the count, completes the level iff it was completed or the count equals the total, and marks a completed level's time as recorded |
| Interpreter.BookkeepingKeepsCompletion | src/systems/execution.rs:274-330 | a completed level stays completed through both bookkeeping systems |
| Interpreter.CheckCompletionSystem | src/systems/execution.rs:290-339 | while not executing and with a current level, the record is updated by RecordCompletion; time is up iff in normal mode every normal level is completed |
| Levels.LevelName | src/structs/level.rs:24-39 | the last LEVEL line's name, or "Problème {id+1}" |
| Levels.PrefixesExclusive | src/structs/level.rs:38-59 | a line matches at most one of the four directive prefixes |
| Levels.GridIsNoDirective | src/structs/level.rs:59 | the GRID: marker is not a directive |
| Levels.ParseLimits | src/structs/level.rs:54-58 | Ok iff every token is a usize, and then one limit per token in order; otherwise the functions error |
| Levels.ParseEach | src/structs/level.rs:57 | one parse result per token, the k-th being the k-th token parsed as a usize |
| Levels.CollectNumbers | src/structs/level.rs:55-58 | Ok iff every result from position i on is present, and then exactly those numbers in order; otherwise the functions error |
| Levels.ApplyDirective | src/structs/level.rs:38-58 | a non-directive line changes nothing; LEVEL sets the name to the rest of the line; SIZE and ROBOT with the right token count succeed iff every token parses, then set exactly those values, and each bad token gives its own error (the first failing one in order: "Erreur parse width" or "Erreur parse height", "Erreur parse robot x", "Erreur parse robot y" or "Direction invalide"); FUNCTIONS succeeds iff every token is a usize and then sets the limits, and otherwise fails with "Erreur parse functions"; each directive changes only its own fields; SIZE and ROBOT with the wrong token count change nothing |
| Levels.StepLine | src/structs/level.rs:36-63 | the loop ends exactly at a trimmed "GRID:"; other non-directives are skipped |
| Levels.ScanDirectives | src/structs/level.rs:35-64 | the grid starts at or after the scan start and within the lines; failures are directive errors |
| Levels.DirectiveSetsItsField | src/structs/level.rs:38-58 | a line that sets a header part gives it the value its tokens spell, and fails when they do not parse; other parts keep their values |
| Levels.DirectiveFailsIffMalformed | src/structs/level.rs:38-58 | a directive fails exactly when one of the parts it sets does not parse; other lines never fail |
| Levels.FirstMark | src/structs/level.rs:35-62 | the position found lies between the scan start and the end |
| Levels.FirstMarkIsFirst | src/structs/level.rs:35-62 | no marked position before the one found, and the found one is marked unless it is the end |
| Levels.GridStart | src/structs/level.rs:59-61 | the grid start lies between the scan start and the end of the file |
| Levels.GridStartIsFirstMarker | src/structs/level.rs:59-61 | the grid starts one past the first line that trims to GRID:, or at the end of the file when there is none |
| Levels.GridStartStep | src/structs/level.rs:59-63 | a GRID: line ends the header right there; any other line leaves the grid start to the lines after it |
| Levels.ScanFindsGridStart | src/structs/level.rs:35-64 | a successful directive loop stops exactly at GridStart |
| Levels.ScanFailsAtBadDirective | src/structs/level.rs:35-64 | the directive loop fails iff some directive before the grid marker has a token that does not parse |
| Levels.ScanContinues | src/structs/level.rs:35-64 | a line before the marker is applied and the loop carries on with the next line |
| Levels.ScanKeepsUnsetField | src/structs/level.rs:24-64 | a header part that no line before the grid sets keeps its starting value |
| Levels.ScanTakesLastSetting | src/structs/level.rs:35-64 | a header part holds the value given by the last line before the grid that sets it |
| Levels.CellAt | src/structs/level.rs:76-80 | column x's token, or "X" past the end of the row |
| Levels.TileOf | src/structs/level.rs:82-91 | None iff the token is X; otherwise a tile at (x, y), uncollected, starred iff the token holds '*', coloured by its first character ('.' when empty) |
| Levels.RowTiles | src/structs/level.rs:75-92 | one cell per column |
| Levels.GridTilesLength | src/structs/level.rs:67-93 | width × rows-read tiles |
| Levels.RowsRead | src/structs/level.rs:67-70 | height rows when the lines allow, otherwise the lines that remain |
| Levels.TotalStars | src/structs/level.rs:95-98 | at most the number of tiles |
| Levels.TotalStarsCountsStarTiles | src/structs/level.rs:95-98 | the count equals the number of tile indices holding a star |
| Levels.ParseLevel | src/structs/level.rs:20-111 | a parsed level has the given id and total_stars equal to its star count; it parses only when the directive loop succeeds; errors are directive errors |
| Levels.ParsedHeader | src/structs/level.rs:100-110 | the level parses iff the directive loop succeeds, and then its name, size, robot pose and limits are the header the loop read, the name falling back to the default |
| Levels.LastMark | src/structs/level.rs:35-64 | the last marked position before j, with nothing marked after it; None iff nothing before j is marked |
| Levels.LastSetter | src/structs/level.rs:35-64 | the last line before j that sets the given header part, with none after it; None iff no line before j sets it |
| Levels.ParsedFieldIsLastSetting | src/structs/level.rs:24-64 | each header part of a parsed level is the value spelled by the last line before the grid that sets it, or its default when none does |
| Levels.ParsedTiles | src/structs/level.rs:59-93 | the tiles are read from GridStart, one past the first line that trims to GRID: or the end of the file: width cells (none when width is not positive) for each of the rows the file still holds, up to height; GridTileAt then gives each tile |
| Levels.ParsedGridSize | src/structs/level.rs:67-93 | the tile count equals width × rows actually read |
| Levels.FromFile | src/structs/level.rs:20-111 | the imperative parser computes ParseLevelFile |
| Levels.ReadHeader | src/structs/level.rs:35-64 | the directive loop computes ScanDirectives |
| Levels.ReadLine | src/structs/level.rs:36-63 | one iteration computes StepLine |
| Levels.ReadDirective | src/structs/level.rs:38-58 | the if-chain computes ApplyDirective |
| Levels.ReadGrid | src/structs/level.rs:67-93 | the row loop computes GridTiles for the rows read |
| Levels.ReadRow | src/structs/level.rs:75-92 | the column loop computes RowTiles for one row |
| Levels.DefaultsWithoutDirectives | src/structs/level.rs:24-30 | without directive lines the header keeps every default |
| Levels.DefaultLevel | src/structs/level.rs:24-30 | a file with no directive is the default level: 0 by 0, robot at (0, 0) North, limits [5], no tiles |
| Levels.GridTileAt | src/structs/level.rs:75-91 | the tile at index y*width+x comes from token x of grid row y |
| Levels.SizeDirectiveRoundTrip | src/structs/level.rs:40-45 | a SIZE line written from two i32 values sets exactly those dimensions |
| Levels.RobotDirectiveRoundTrip | src/structs/level.rs:46-52 | a ROBOT line written from a position and a heading sets exactly that start pose |
| Levels.DirectionLetterParses | src/structs/controls.rs:51-59 | the initial letter of each heading parses back to that heading |
| Levels.FunctionsDirectiveRoundTrip | src/structs/level.rs:53-58 | a FUNCTIONS line written from limits sets exactly those limits |
| Levels.ProblemState.ResetStars | src/structs/level.rs:136-143 | zeroes the stars; keeps completion and time; clears the recorded flag only on an uncompleted level |
| Levels.ProblemState.CheckCompletion | src/structs/level.rs:145-149 | completed iff it was completed or the count equals the total; only that flag changes |
| Levels.ProblemState.StartTimer | src/structs/level.rs:151-154 | sets the start time and clears the recorded flag, nothing else |
| Levels.ProblemState.RecordCompletionTime | src/structs/level.rs:156-161 | recorded iff it was recorded or the level is completed; nothing else |
| Levels.ProblemState.SetCompletionTime | src/structs/level.rs:163-167 | keeps the smaller of the stored time and the new one |
| Levels.NewProblemState | src/structs/level.rs:125-134 | n empty functions, zero stars, not completed, no time |
| Levels.CompletionIsSticky | src/structs/level.rs:136-167 | once completed, every ProblemState update keeps it completed |
| Levels.CompletionTimeIsBest | src/structs/level.rs:163-167 | after several attempts the stored time is the minimum of them and of any earlier time |
| LevelManagement.SelectLevelFiles | src/resources/level.rs:52-64 | Ok iff every directory entry reads; exactly the .txt files whose stem parses as a number are selected |
| LevelManagement.SortByNumber | src/resources/level.rs:67 | sorted by number, and a permutation of the input |
| LevelManagement.SortIsStable | src/resources/level.rs:67 | files with the same number keep their relative order |
| LevelManagement.InsertKeepsSorted | src/resources/level.rs:67 | insertion keeps the list sorted |
| LevelManagement.InsertAddsOne | src/resources/level.rs:67 | insertion adds exactly the new file |
| LevelManagement.Outcomes | src/resources/level.rs:70-71 | one parse outcome per file |
| LevelManagement.OutcomeAt | src/resources/level.rs:70-71 | file k is parsed with id start_id + k |
| LevelManagement.Collect | src/resources/level.rs:70-84 | Ok iff every outcome so far is a level, and then exactly those levels in order |
| LevelManagement.CollectErrorSticks | src/resources/level.rs:76-79 | once a file fails, later files do not change the result |
| LevelManagement.CollectReportsFirstFailure | src/resources/level.rs:76-79 | a failed load names a failing file with only successes before it |
| LevelManagement.LoadedLevelsInFileOrder | src/resources/level.rs:43-85 | a successful load holds the selected files in numeric order, the k-th parsed with id start_id + k |
| LevelManagement.SelectErrorSticks | src/resources/level.rs:53 | the first unreadable entry aborts the selection |
| LevelManagement.SelectionKeepsListingOrder | src/resources/level.rs:52-64 | the selected files are the level-file entries in listing order, each once: an increasing index sequence maps each selected file to its entry and names every level-file entry |
| LevelManagement.SelectionReportsFirstFailure | src/resources/level.rs:53 | a failed selection reports "Erreur path: " + the error of the first unreadable entry |
| LevelManagement.LoadLevels | src/resources/level.rs:43-85 | an unreadable directory gives the directory error; an unreadable entry gives its error; a successful load has one level per selected file |
| LevelManagement.CollectedLevelsParse | src/resources/level.rs:70-84 | levels collected from all the files are their parses in order, with ids start_id + k |
| LevelManagement.LoadLevelsFromPath | src/resources/level.rs:43-85 | the loops compute LoadLevels |
| LevelManagement.SelectFiles | src/resources/level.rs:52-64 | the selection loop computes SelectLevelFiles |
| LevelManagement.LoadAll | src/resources/level.rs:70-81 | the load loop computes Collect over all files |
| LevelManagement.LoadLoopExit | src/resources/level.rs:70-81 | where the load loop stops, at the end or at the first failure, it holds the whole collection |
| LevelManagement.LoadNext | src/resources/level.rs:71-79 | one pass appends the parsed level or reports the failure with its path |
| LevelManagement.InsertStates | src/resources/level.rs:88-91 | the map gains exactly the levels' ids, and other entries are kept |
| LevelManagement.InsertStatesFresh | src/resources/level.rs:88-91 | with distinct ids every level gets a new record with function_limits.len() empty functions |
| LevelManagement.AllCompleted | src/resources/level.rs:179-200 | every level has a record and it is completed; a missing record counts as not completed |
| LevelManagement.ReportFileName | src/resources/level.rs:233-235 | results_{last}_{first}.txt with every space replaced by '_', so the name holds no space |
| LevelManagement.LevelManager.constructor | src/resources/level.rs:24-33 | Tutorial mode, level 0, no levels, no records |
| LevelManagement.LevelManager.SetTutorialLevels | src/resources/level.rs:87-93 | the tutorial levels are replaced and each gets a fresh record; nothing else changes |
| LevelManagement.LevelManager.SetNormalLevels | src/resources/level.rs:95-101 | the normal levels are replaced and each gets a fresh record; nothing else changes |
| LevelManagement.LevelManager.GetLevels | src/resources/level.rs:134-139 | the list of the current type |
| LevelManagement.LevelManager.GetLevelsCount | src/resources/level.rs:142-147 | the length of that list |
| LevelManagement.LevelManager.GetCurrentLevel | src/resources/level.rs:103-108 | Some iff the id is below the count, and then the level at that position |
| LevelManagement.LevelManager.GetProblemState | src/resources/level.rs:119-124 | the record of the current type's map, if present |
| LevelManagement.LevelManager.CurrentProgram | src/systems/execution.rs:33-42 | present iff both the current level and its record are, and then the functions of that record |
| LevelManagement.LevelManager.PutProblemState | src/resources/level.rs:126-131 | a write through get_problem_state_mut changes only that record of the current type's map |
| LevelManagement.LevelManager.SwitchToLevel | src/resources/level.rs:110-112 | only the id changes |
| LevelManagement.LevelManager.SwitchLevelType | src/resources/level.rs:114-117 | sets the type and resets the id to 0 |
| LevelManagement.LevelManager.CanProceedToNext | src/resources/level.rs:154-161 | true iff the current level has a completed record |
| LevelManagement.LevelManager.TryNextLevel | src/resources/level.rs:164-176 | in Tutorial mode it is blocked unless the level is completed; otherwise it advances iff id+1 < count and returns the new id |
| LevelManagement.LevelManager.AreAllTutorialsCompleted | src/resources/level.rs:179-190 | true outside Tutorial mode; otherwise every tutorial level has a completed record (vacuously true when there are none) |
| LevelManagement.LevelManager.AreAllLevelsCompleted | src/resources/level.rs:193-200 | every normal level has a completed record; a missing record counts as not completed |
| LevelSystems.MarkStars | src/systems/level.rs:56-60 | the same cells; every present tile's collected flag becomes completed ∧ has_star |
| LevelSystems.MarkedStarCount | src/systems/level.rs:45-60 | the collected count afterwards is every star on a completed level, and none otherwise |
| LevelSystems.MarkStarsInPlace | src/systems/level.rs:56-60 | the in-place loop computes MarkStars and keeps the dimensions |
| LevelSystems.SwitchLevel | src/systems/level.rs:20-71 | the id becomes the target; for an existing level its record's timer restarts, the grid is replaced by the level's with stars marked by its completion, and both robot poses become the level's start |
| LevelSystems.SwitchShowsCompletion | src/systems/level.rs:45-60 | after a switch the shown stars are all of them on a completed level and none otherwise, differing from the fresh grid only in collected flags |
| LevelSystems.HandleLevelSwitchSystem | src/systems/level.rs:20-71 | the last event decides the current id; when that level exists, its timer is restarted, the grid is its grid with stars marked by its completion and the robot is on its start pose; records keep their ids and everything but the timer; the levels and the type are kept |
| LevelSystems.AutoStartFirstLevel | src/systems/level.rs:75-125 | with a current level, a new grid copying it and a robot on its start pose, then Tutorial or Editing by the level type; without one, back to Loading |
| Editor.UnwrapConditional | src/systems/ui.rs:1092-1099 | removes exactly one conditional layer, and is the identity on other instructions |
| Editor.WrapWithCondition | src/systems/ui.rs:1225-1232 | Gray adds nothing; any other colour adds exactly one conditional of that colour around the instruction |
| Editor.WrapRoundTrip | src/systems/ui.rs:1225-1232 | unwrap(wrap(i, c)) == i and colour(wrap(i, c)) == c for c ≠ Gray; rewrapping a conditional with its own colour gives it back; non-conditionals have no colour |
| Editor.Padded | src/systems/ui.rs:1234-1238 | long enough to hold the slot, the old prefix kept, new cells Noop, and unchanged when already long enough |
| Editor.EnsureFunctionSize | src/systems/ui.rs:1234-1238 | the push loop computes Padded, so the slot exists afterwards |
| Editor.SlotAfter | src/systems/ui.rs:1112-1160 | an instruction alone keeps the slot's colour; a condition alone uncolours (Gray) or recolours while keeping the base instruction; both together give the instruction in that colour |
| Editor.RecolourOverrides | src/systems/ui.rs:1130-1145 | recolouring twice equals recolouring once with the second colour |
| Editor.Click | src/systems/ui.rs:1102-1168 | only the clicked slot changes, apart from Noop padding; with nothing selected an existing slot becomes Noop and the length is kept; a selection not kept is cleared |
| Editor.InstructionClickIsIdempotent | src/systems/ui.rs:1112-1127 | with the selection kept, a second identical click changes nothing |
| Editor.HandleSlotClick | src/systems/ui.rs:1102-1168 | the in-place click computes Click |
| Editor.Cleared | src/systems/ui.rs:1279-1281 | as many functions as before, all empty |
| Editor.ClearedProgramIsInert | src/systems/ui.rs:1275-1284 | a cleared program executes nothing: a tick leaves robot and grid unchanged and reports no star |
| Editor.ClearAllInstructions | src/systems/ui.rs:1275-1284 | with a current level and record, only that record's functions are emptied, their number kept; otherwise nothing changes |
| Editor.ResetLevelState | src/systems/ui.rs:1244-1273 | the robot returns to its start; on a level not completed every star shows uncollected, the count is 0 and the record's stars are reset; a completed level keeps its grid and record |
| Players.ParseFullName | src/systems/player.rs:162-181 | None iff fewer than two words (so blank input too); otherwise the first word and the remaining words joined by single spaces |
| Players.BlankNameIsRefused | src/systems/player.rs:163-166 | empty or whitespace-only input gives None |
| Players.ParsedNamePartsAreTrimmed | src/systems/player.rs:169-180 | both parts are non-empty without surrounding whitespace; the last name is one word and the two parts give back the input's words |
| Players.ParseIgnoresSpacing | src/systems/player.rs:169 | inputs with the same words give the same result |
| Players.ParseOfCanonicalName | src/systems/player.rs:162-181 | writing a parsed name back as "last first" parses to the same name |

## Left out

- The Bevy timers are left out: the engine's `Timer`, `GameTimer`, `LevelTimer` and the timer systems. A timer that fires is the boolean input `fired` of `tick`. Step durations are whole milliseconds, and completion times are `real`s.
- `force_single_step` is left out because it only advances the timer.
- `ExecutionEngine.get_speed`, `get_current_function` and `get_current_instruction` are plain field reads and are not modelled separately.
- The ECS plumbing is left out: queries, `single_mut` early returns, entity spawning and despawning, `NextState` and logging. The current robot and grid are passed in as present. `auto_start_first_level_system` returns the new grid and robot and the next `GameState`.
- `StarCollectedEvent`s are a returned star position (from `ExecutionSystem`) and a list of events (for `UpdateStarCounterSystem`).
- `handle_level_switch_system` resets the level timer; that reset is left out with the timers.
- In `execute_instruction`, the `CallFunction` branch reports "Aucun état de problème trouvé" when the record is missing. That branch is not modelled: `execution_system` has already returned without a record, so it cannot be reached. The functions are passed in instead.
- The order between `check_completion_system` and `record_completion_time_system` depends on Bevy's schedule and is not modelled. `RecordCompletion` is the first system's effect alone.
- `ProblemState` is a value, with one function per method. The manager updates its records in place through `PutProblemState`, which models writes through `get_problem_state_mut`.
- The level header keeps the name as `None` until a `LEVEL` line sets it, and `LevelName` then supplies `"Problème {id+1}"`. The source starts from that default string instead; the resulting name is the same.
- File system access is left out: `fs::read_to_string`, `fs::read_dir` and `fs::write`. A level file is its list of lines, or the read error. A directory listing is a list of entries (path, stem, extension), or the listing error.
- `generate_final_report` and the writing of the report are left out, because they are formatting and I/O. Only the report's file name is modelled.
- Rendering, egui widgets and layout, textures, `to_rotation` and `to_bevy_color` are left out: they are presentation.
- Integers are unbounded: coordinates are `int`, and counts and indices are `nat`. The parser accepts exactly the `i32` and `usize` ranges that `parse` accepts.
- Grids.GridData.GetIndex: computes `y * width + x` without the source's `i32` overflow. `SIZE` accepts any `i32` width and height, so the source's index arithmetic overflows when width × height exceeds `i32::MAX` (a panic in a debug build, a wrap-around in a release build). The model assumes width × height fits in an `i32`.
- `Text.IsWhitespace` lists the Unicode White_Space characters explicitly.
- Text.ToUpper: upper-cases ASCII letters only. Rust's `to_uppercase` also maps some non-ASCII letters to ASCII ones: 'ſ' becomes "S", and 'ﬅ' and 'ﬆ' become "ST". So the source's `from_str("ſ")` is `Some(South)`, while `Controls.FromStr` gives `None`. Non-ASCII letters whose upper case is ASCII are not mapped.
- LevelSystems.HandleLevelSwitchSystem: when the last target has no level, the grid and robot are those left by the earlier events. The contract does not state this, because that state is not a function of the final state alone.
