/**
 * The per-tick interpreter (src/systems/execution.rs): the skip loop of
 * `execution_system`, `execute_instruction`, and the two systems that recount
 * the stars and record completion.
 *
 * The specification works on values: `Chase` is the skip loop, `Execute` runs one
 * instruction, `SystemStep` is a whole tick. The methods below it update the engine,
 * robot, grid and level manager in place and are proved to agree with it.
 */
module Interpreter {
  import opened Wrappers
  import opened Text
  import opened Controls
  import opened Tiles
  import opened Grids
  import opened Robots
  import opened Engine
  import opened Levels
  import opened LevelManagement

  /** The functions of a player's program, `functions[i]` being function `i`. */
  type Program = seq<seq<Instruction>>

  /** What one tick may change: the engine, the robot and the grid. */
  datatype World = World(engine: EngineData, robot: RobotData, grid: GridData)

  /** The outcome of a tick or an instruction: the new world and the star collected on the way, if any. */
  datatype Step = Step(world: World, star: Option<(int, int)>)

  const OutOfPuzzle := "Vous êtes en dehors du puzzle"

  function NoSuchFunction(f: nat): string {
    "Fonction " + NatToString(f) + " n'existe pas"
  }

  // ------------------------------------------------------------ conditions

  /** The robot stands on a tile of colour `c`. */
  predicate OnColor(grid: GridData, robot: RobotData, c: TileColor) {
    var t := grid.GetTileAt(robot.x, robot.y);
    t.Some? && t.value.color == c
  }

  /** `should_skip`: a conditional whose colour is not the colour of the tile under the robot, or with no tile there. */
  predicate ShouldSkip(ins: Instruction, grid: GridData, robot: RobotData) {
    ins.IsConditional() && !OnColor(grid, robot, ins.ConditionColor().value)
  }

  // ------------------------------------------------------------ skip loop

  /** How the skip loop ends. */
  datatype Fetch =
    | Halted(engine: EngineData)                        // the current function does not exist: stopped
    | Returned(engine: EngineData)                      // ran off the end with no frame to return to: stopped
    | Fetched(engine: EngineData, instruction: Instruction)  // an instruction to execute

  /** Instructions left in the current function; the skip loop's inner measure. */
  function Remaining(fns: Program, e: EngineData): nat {
    if e.currentFunction < |fns| && e.currentInstruction < |fns[e.currentFunction]| then
      |fns[e.currentFunction]| - e.currentInstruction
    else 0
  }

  /** `e2` differs from `e` at most in its program counter and its call stack, which it may only have popped. */
  predicate OnlyUnwound(e: EngineData, e2: EngineData) {
    e2 == e.(currentFunction := e2.currentFunction, currentInstruction := e2.currentInstruction,
             callStack := e2.callStack)
    && |e2.callStack| <= |e.callStack| && e2.callStack == e.callStack[..|e2.callStack|]
  }

  /**
   * The skip loop of `execution_system`: stop on a missing function, return from a
   * finished one, step over a conditional that does not match, and otherwise hand
   * over the instruction at the program counter. Robot and grid are only read.
   * Each turn pops a frame or moves one instruction on, so the loop ends.
   */
  function Chase(fns: Program, e: EngineData, grid: GridData, robot: RobotData): (f: Fetch)
    ensures !f.Fetched? ==> f.engine == e.Stop()
    ensures e.currentFunction >= |fns| ==> f == Halted(e.Stop())
    ensures f.Fetched? ==>
              var e2 := f.engine;
              e2.currentFunction < |fns| && e2.currentInstruction < |fns[e2.currentFunction]|
              && f.instruction == fns[e2.currentFunction][e2.currentInstruction]
              && !ShouldSkip(f.instruction, grid, robot)
              && OnlyUnwound(e, e2)
    decreases |e.callStack|, Remaining(fns, e)
  {
    if e.currentFunction >= |fns| then Halted(e.Stop())
    else if e.currentInstruction >= |fns[e.currentFunction]| then
      var (e2, ok) := e.ReturnFromFunction();
      if !ok then Returned(e2)
      else
        var f := Chase(fns, e2, grid, robot);
        assert e.callStack[..|e2.callStack|] == e2.callStack;
        f
    else
      var ins := fns[e.currentFunction][e.currentInstruction];
      if ShouldSkip(ins, grid, robot) then Chase(fns, e.AdvanceInstruction(), grid, robot)
      else Fetched(e, ins)
  }

  /** A conditional that does not match is stepped over for free: the loop just goes on at the next instruction. */
  lemma SkipIsFree(fns: Program, e: EngineData, grid: GridData, robot: RobotData)
    requires e.currentFunction < |fns| && e.currentInstruction < |fns[e.currentFunction]|
    requires ShouldSkip(fns[e.currentFunction][e.currentInstruction], grid, robot)
    ensures Chase(fns, e, grid, robot) == Chase(fns, e.AdvanceInstruction(), grid, robot)
  {
  }

  /** Past the end of a function the loop resumes one past the caller's call, or stops when there is no caller. */
  lemma EndOfFunctionReturns(fns: Program, e: EngineData, grid: GridData, robot: RobotData)
    requires e.currentFunction < |fns| && e.currentInstruction >= |fns[e.currentFunction]|
    ensures e.callStack == [] ==> Chase(fns, e, grid, robot) == Returned(e.Stop())
    ensures e.callStack != [] ==>
              var top := e.callStack[|e.callStack| - 1];
              Chase(fns, e, grid, robot)
              == Chase(fns, e.(callStack := e.callStack[..|e.callStack| - 1],
                               currentFunction := top.func, currentInstruction := top.instr + 1), grid, robot)
  {
  }

  // ------------------------------------------------------------ one instruction

  /** Collecting the star under (x, y), if there is one not yet collected; `get_tile_at_mut` then a field write. */
  function CollectStar(grid: GridData, x: int, y: int): (r: (GridData, Option<(int, int)>))
    ensures r.1.Some? ==> r.1 == Some((x, y))
    ensures r.1.Some? <==>
              var t := grid.GetTileAt(x, y);
              t.Some? && t.value.hasStar && !t.value.starCollected
    ensures r.1.None? ==> r.0 == grid
    ensures r.1.Some? ==>
              var i := grid.MutTileIndex(x, y).value;
              r.0 == grid.(tiles := grid.tiles[i := Some(grid.tiles[i].value.(starCollected := true))])
  {
    match grid.MutTileIndex(x, y)
    case None => (grid, None)
    case Some(i) =>
      var t := grid.tiles[i].value;
      if t.hasStar && !t.starCollected then
        (grid.(tiles := grid.tiles[i := Some(t.(starCollected := true))]), Some((x, y)))
      else (grid, None)
  }

  /** The robot made at most one move: none, a quarter turn, or one step along its heading. */
  predicate OneMove(r: RobotData, r2: RobotData) {
    r2 == r || r2 == r.TurnedLeft() || r2 == r.TurnedRight()
    || r2 == r.(x := r.x + r.direction.Offset().0, y := r.y + r.direction.Offset().1)
  }

  /** `g2` is `g` with possibly more stars collected: same shape, same tiles, and no star uncollected. */
  predicate StarsOnlyCollected(g: GridData, g2: GridData) {
    g2.width == g.width && g2.height == g.height && |g2.tiles| == |g.tiles|
    && forall k :: 0 <= k < |g.tiles| ==>
         (g2.tiles[k].Some? <==> g.tiles[k].Some?)
         && (g.tiles[k].Some? ==>
               g2.tiles[k].value == g.tiles[k].value.(starCollected := g2.tiles[k].value.starCollected)
               && (g.tiles[k].value.starCollected ==> g2.tiles[k].value.starCollected))
  }

  /** `star` records the change from `g` to `g2`: nothing changed, or exactly the uncollected star at `star` was collected. */
  predicate StarRecorded(g: GridData, g2: GridData, star: Option<(int, int)>) {
    (star.None? ==> g2 == g)
    && (star.Some? ==>
          var (x, y) := star.value;
          var t := g.GetTileAt(x, y);
          t.Some? && t.value.hasStar && !t.value.starCollected
          && g.MutTileIndex(x, y).Some?
          && g2 == g.(tiles := g.tiles[g.MutTileIndex(x, y).value := Some(t.value.(starCollected := true))]))
  }

  /**
   * `execute_instruction`. A conditional runs its inner instruction when the robot
   * stands on its colour and otherwise only moves on; an error leaves the world as it was.
   */
  function Execute(ins: Instruction, fns: Program, w: World): (r: Result<Step>)
    ensures r.Ok? ==> OneMove(w.robot, r.value.world.robot)
    ensures r.Ok? ==> StarRecorded(w.grid, r.value.world.grid, r.value.star)
    ensures r.Ok? ==> r.value.world.engine == w.engine.AdvanceInstruction()
                      || (r.value.world.engine.currentFunction < |fns|
                          && r.value.world.engine == w.engine.CallFunction(r.value.world.engine.currentFunction))
    ensures r.Err? ==> r.error == OutOfPuzzle || StartsWith(r.error, "Fonction ")
    decreases ins
  {
    var e := w.engine;
    var robot := w.robot;
    var grid := w.grid;
    match ins
    case Forward =>
      var (dx, dy) := robot.direction.Offset();
      var nx := robot.x + dx;
      var ny := robot.y + dy;
      if !grid.IsValidPosition(nx, ny) then Err(OutOfPuzzle)
      else
        var (g2, star) := CollectStar(grid, nx, ny);
        Ok(Step(World(e.AdvanceInstruction(), robot.(x := nx, y := ny), g2), star))
    case TurnLeft => Ok(Step(World(e.AdvanceInstruction(), robot.TurnedLeft(), grid), None))
    case TurnRight => Ok(Step(World(e.AdvanceInstruction(), robot.TurnedRight(), grid), None))
    case CallFunction(f) =>
      if f < |fns| then Ok(Step(World(e.CallFunction(f), robot, grid), None))
      else Err(NoSuchFunction(f))
    case ConditionalRed(inner) =>
      if OnColor(grid, robot, Red) then Execute(inner, fns, w)
      else Ok(Step(World(e.AdvanceInstruction(), robot, grid), None))
    case ConditionalGreen(inner) =>
      if OnColor(grid, robot, Green) then Execute(inner, fns, w)
      else Ok(Step(World(e.AdvanceInstruction(), robot, grid), None))
    case ConditionalBlue(inner) =>
      if OnColor(grid, robot, Blue) then Execute(inner, fns, w)
      else Ok(Step(World(e.AdvanceInstruction(), robot, grid), None))
    case Noop => Ok(Step(World(e.AdvanceInstruction(), robot, grid), None))
  }

  /**
   * Forward faults exactly when the square ahead holds no tile; otherwise the robot
   * steps onto it, keeps its heading and start pose, and the program counter moves on.
   */
  lemma ForwardOutcome(fns: Program, w: World)
    ensures var (dx, dy) := w.robot.direction.Offset();
            var r := Execute(Forward, fns, w);
            (r.Err? <==> !w.grid.IsValidPosition(w.robot.x + dx, w.robot.y + dy))
            && (r.Err? ==> r.error == OutOfPuzzle)
            && (r.Ok? ==>
                  r.value.world.robot == w.robot.(x := w.robot.x + dx, y := w.robot.y + dy)
                  && r.value.world.engine.currentInstruction == w.engine.currentInstruction + 1
                  && r.value.world.engine.callStack == w.engine.callStack)
  {
  }

  /** A call to an existing function jumps to its start, pushing the caller and not advancing it; any other index is an error. */
  lemma CallOutcome(fns: Program, w: World, f: nat)
    ensures var r := Execute(CallFunction(f), fns, w);
            (r.Ok? <==> f < |fns|)
            && (r.Err? ==> r.error == NoSuchFunction(f))
            && (r.Ok? ==>
                  var e2 := r.value.world.engine;
                  e2.currentFunction == f && e2.currentInstruction == 0
                  && e2.callStack == w.engine.callStack + [Frame(w.engine.currentFunction, w.engine.currentInstruction)]
                  && r.value.world.robot == w.robot && r.value.world.grid == w.grid)
  {
  }

  /**
   * A matched conditional whose inner conditional does not match still uses up the
   * step: the program counter moves on and nothing else happens.
   */
  lemma NestedMismatchConsumesStep(fns: Program, w: World, inner: Instruction)
    requires OnColor(w.grid, w.robot, Red) && ShouldSkip(inner, w.grid, w.robot)
    ensures Execute(ConditionalRed(inner), fns, w)
            == Ok(Step(World(w.engine.AdvanceInstruction(), w.robot, w.grid), None))
  {
    var c := inner.ConditionColor().value;
    assert !OnColor(w.grid, w.robot, c);
  }

  // ------------------------------------------------------------ one tick

  /**
   * `execution_system` on values: a tick that is not due changes only the engine's
   * tick state; without a current level or its progress record nothing more happens;
   * otherwise the skip loop runs and at most one instruction executes. An error is
   * reported to the engine (which stops) and sends the robot back to its start.
   */
  function SystemStep(w: World, program: Option<Program>, fired: bool): (s: Step)
    ensures s.world.grid == w.grid || s.star.Some?
    ensures StarRecorded(w.grid, s.world.grid, s.star)
  {
    var (e1, due) := w.engine.Tick(fired);
    if !due || program.None? then Step(w.(engine := e1), None)
    else RunProgram(w.(engine := e1), program.value)
  }

  /** The part of a due tick after the lookups: the skip loop, then the instruction it stops at. */
  function RunProgram(w: World, fns: Program): Step {
    match Chase(fns, w.engine, w.grid, w.robot)
    case Halted(e2) => Step(w.(engine := e2), None)
    case Returned(e2) => Step(w.(engine := e2), None)
    case Fetched(e2, ins) => RunInstruction(ins, fns, w.(engine := e2))
  }

  /** The `match` on the result of `execute_instruction`: keep its effect, or report the error and reset the robot. */
  function RunInstruction(ins: Instruction, fns: Program, w: World): Step {
    match Execute(ins, fns, w)
    case Ok(s) => s
    case Err(message) => Step(World(w.engine.SetError(message), w.robot.ResetToStart(), w.grid), None)
  }

  /** A tick moves the robot at most once: one step, one quarter turn, or back to its start after a fault. */
  lemma AtMostOneMovePerTick(w: World, program: Option<Program>, fired: bool)
    ensures var r2 := SystemStep(w, program, fired).world.robot;
            OneMove(w.robot, r2) || r2 == w.robot.ResetToStart()
  {
  }

  /** A faulting instruction leaves the engine stopped, with no message kept, and the robot on its start pose. */
  lemma FaultResetsRobot(w: World, fns: Program, fired: bool)
    requires var (e1, due) := w.engine.Tick(fired);
             due && var f := Chase(fns, e1, w.grid, w.robot);
             f.Fetched? && Execute(f.instruction, fns, w.(engine := f.engine)).Err?
    ensures var s := SystemStep(w, Some(fns), fired);
            s.world.robot == w.robot.ResetToStart() && s.world.engine.IsStopped()
            && s.world.engine.errorMessage.None? && s.world.grid == w.grid && s.star.None?
  {
    var (e1, due) := w.engine.Tick(fired);
    var f := Chase(fns, e1, w.grid, w.robot);
    SetErrorDiscardsMessage(f.engine, Execute(f.instruction, fns, w.(engine := f.engine)).error);
    StopResets(f.engine);
  }

  /** When the current function does not exist the tick stops the engine and executes nothing. */
  lemma MissingFunctionStops(w: World, fns: Program, fired: bool)
    requires var (e1, due) := w.engine.Tick(fired);
             due && e1.currentFunction >= |fns|
    ensures var s := SystemStep(w, Some(fns), fired);
            s.world.engine == w.engine.Tick(fired).0.Stop()
            && s.world.robot == w.robot && s.world.grid == w.grid && s.star.None?
  {
  }

  /** A tick never uncollects a star, never changes the grid's shape, and reports exactly the star it collects. */
  lemma TickOnlyCollectsStars(w: World, program: Option<Program>, fired: bool)
    ensures var s := SystemStep(w, program, fired);
            StarsOnlyCollected(w.grid, s.world.grid) && StarRecorded(w.grid, s.world.grid, s.star)
  {
    var s := SystemStep(w, program, fired);
    StarRecordedOnlyCollects(w.grid, s.world.grid, s.star);
  }

  lemma StarRecordedOnlyCollects(g: GridData, g2: GridData, star: Option<(int, int)>)
    requires StarRecorded(g, g2, star)
    ensures StarsOnlyCollected(g, g2)
  {
    if star.Some? {
      var i := g.MutTileIndex(star.value.0, star.value.1).value;
      forall k | 0 <= k < |g.tiles|
        ensures (g2.tiles[k].Some? <==> g.tiles[k].Some?)
                && (g.tiles[k].Some? ==>
                      g2.tiles[k].value == g.tiles[k].value.(starCollected := g2.tiles[k].value.starCollected)
                      && (g.tiles[k].value.starCollected ==> g2.tiles[k].value.starCollected))
      {
        if k == i {
          assert g2.tiles[k] == Some(g.tiles[i].value.(starCollected := true));
        }
      }
    }
  }

  // ------------------------------------------------------------ star count

  /** One for a present tile whose star has been collected. */
  function CollectedAt(t: Option<Tile>): nat {
    if t.Some? && t.value.hasStar && t.value.starCollected then 1 else 0
  }

  /** `filter(has_star && star_collected).count()`: the collected stars on the grid. */
  function CollectedStars(tiles: seq<Option<Tile>>): (n: nat)
    ensures n <= TotalStars(tiles)
    decreases |tiles|
  {
    if tiles == [] then 0
    else
      CollectedStars(tiles[..|tiles| - 1]) + CollectedAt(tiles[|tiles| - 1])
  }

  /** Collecting one uncollected star raises the count by exactly one. */
  lemma {:induction false} CollectingCountsOne(tiles: seq<Option<Tile>>, i: nat)
    requires i < |tiles| && tiles[i].Some? && tiles[i].value.hasStar && !tiles[i].value.starCollected
    ensures CollectedStars(tiles[i := Some(tiles[i].value.(starCollected := true))]) == CollectedStars(tiles) + 1
    decreases |tiles|
  {
    var t := Some(tiles[i].value.(starCollected := true));
    var updated := tiles[i := t];
    var n := |tiles| - 1;
    assert CollectedStars(updated) == CollectedStars(updated[..n]) + CollectedAt(updated[n]);
    assert CollectedStars(tiles) == CollectedStars(tiles[..n]) + CollectedAt(tiles[n]);
    if i < n {
      assert updated[..n] == tiles[..n][i := t];
      assert updated[n] == tiles[n];
      CollectingCountsOne(tiles[..n], i);
    } else {
      assert updated[..n] == tiles[..n];
    }
  }

  /** The star a tick reports is one more collected star on the grid; a tick that reports none leaves the count alone. */
  lemma TickCountsItsStar(w: World, program: Option<Program>, fired: bool)
    ensures var s := SystemStep(w, program, fired);
            CollectedStars(s.world.grid.tiles)
            == CollectedStars(w.grid.tiles) + (if s.star.Some? then 1 else 0)
  {
    var s := SystemStep(w, program, fired);
    TickOnlyCollectsStars(w, program, fired);
    if s.star.Some? {
      var g := w.grid;
      var (x, y) := s.star.value;
      var i := g.MutTileIndex(x, y).value;
      CollectingCountsOne(g.tiles, i);
    }
  }

  // ------------------------------------------------------------ in place

  /** `execute_instruction` on the engine, robot and grid, in place; returns the star collected, if any. */
  method ExecuteInstruction(ins: Instruction, fns: Program, engine: ExecutionEngine, robot: Robot, grid: Grid)
    returns (r: Result<Option<(int, int)>>)
    modifies engine, robot, grid
    ensures var spec := Execute(ins, fns, old(World(engine.Data(), robot.Data(), grid.Data())));
            (r.Err? <==> spec.Err?)
            && (r.Err? ==> r.error == spec.error
                           && World(engine.Data(), robot.Data(), grid.Data()) == old(World(engine.Data(), robot.Data(), grid.Data())))
            && (r.Ok? ==> World(engine.Data(), robot.Data(), grid.Data()) == spec.value.world && r.value == spec.value.star)
    decreases ins, 0
  {
    match ins
    case Forward =>
      r := ExecuteForward(fns, engine, robot, grid);
    case TurnLeft =>
      robot.TurnLeft();
      engine.AdvanceInstruction();
      r := Ok(None);
    case TurnRight =>
      robot.TurnRight();
      engine.AdvanceInstruction();
      r := Ok(None);
    case CallFunction(f) =>
      if f < |fns| {
        engine.CallFunction(f);
        r := Ok(None);
      } else {
        r := Err(NoSuchFunction(f));
      }
    case ConditionalRed(inner) =>
      r := ExecuteConditional(Red, inner, fns, engine, robot, grid);
    case ConditionalGreen(inner) =>
      r := ExecuteConditional(Green, inner, fns, engine, robot, grid);
    case ConditionalBlue(inner) =>
      r := ExecuteConditional(Blue, inner, fns, engine, robot, grid);
    case Noop =>
      engine.AdvanceInstruction();
      r := Ok(None);
  }

  /** The Forward arm of `execute_instruction`: fault off the puzzle, otherwise step, collect a waiting star and move on. */
  method ExecuteForward(fns: Program, engine: ExecutionEngine, robot: Robot, grid: Grid)
    returns (r: Result<Option<(int, int)>>)
    modifies engine, robot, grid
    ensures var spec := Execute(Forward, fns, old(World(engine.Data(), robot.Data(), grid.Data())));
            (r.Err? <==> spec.Err?)
            && (r.Err? ==> r.error == spec.error
                           && World(engine.Data(), robot.Data(), grid.Data()) == old(World(engine.Data(), robot.Data(), grid.Data())))
            && (r.Ok? ==> World(engine.Data(), robot.Data(), grid.Data()) == spec.value.world && r.value == spec.value.star)
  {
    var (dx, dy) := robot.direction.Offset();
    var nx := robot.x + dx;
    var ny := robot.y + dy;
    if !grid.Data().IsValidPosition(nx, ny) {
      return Err(OutOfPuzzle);
    }
    robot.x := nx;
    robot.y := ny;
    var star := None;
    var i := grid.Data().MutTileIndex(nx, ny);
    if i.Some? {
      var tile := grid.tiles[i.value].value;
      if tile.hasStar && !tile.starCollected {
        grid.tiles := grid.tiles[i.value := Some(tile.(starCollected := true))];
        star := Some((nx, ny));
      }
    }
    engine.AdvanceInstruction();
    r := Ok(star);
  }

  /** One colour arm of `execute_instruction`: the inner instruction on a tile of colour `c`, otherwise just move on. */
  method ExecuteConditional(c: TileColor, inner: Instruction, fns: Program, engine: ExecutionEngine, robot: Robot, grid: Grid)
    returns (r: Result<Option<(int, int)>>)
    modifies engine, robot, grid
    ensures var w := old(World(engine.Data(), robot.Data(), grid.Data()));
            var spec := if OnColor(w.grid, w.robot, c) then Execute(inner, fns, w)
                        else Ok(Step(World(w.engine.AdvanceInstruction(), w.robot, w.grid), None));
            (r.Err? <==> spec.Err?)
            && (r.Err? ==> r.error == spec.error && World(engine.Data(), robot.Data(), grid.Data()) == w)
            && (r.Ok? ==> World(engine.Data(), robot.Data(), grid.Data()) == spec.value.world && r.value == spec.value.star)
    decreases inner, 1
  {
    var tile := grid.Data().GetTileAt(robot.x, robot.y);
    if tile.Some? && tile.value.color == c {
      r := ExecuteInstruction(inner, fns, engine, robot, grid);
    } else {
      engine.AdvanceInstruction();
      r := Ok(None);
    }
  }

  /**
   * `execution_system`: the tick, the lookups of the current level and its progress
   * record, the skip loop, then at most one instruction. Returns the star collected.
   */
  method ExecutionSystem(engine: ExecutionEngine, robot: Robot, grid: Grid, manager: LevelManager, fired: bool)
    returns (star: Option<(int, int)>)
    modifies engine, robot, grid
    ensures Step(World(engine.Data(), robot.Data(), grid.Data()), star)
            == SystemStep(old(World(engine.Data(), robot.Data(), grid.Data())), manager.CurrentProgram(), fired)
  {
    var due := engine.Tick(fired);
    if !due {
      return None;
    }
    var level := manager.GetCurrentLevel();
    if level.None? {
      return None;
    }
    var state := manager.GetProblemState(level.value.id);
    if state.None? {
      return None;
    }
    star := StepProgram(state.value.functions, engine, robot, grid);
  }

  /** A due tick of `execution_system` once the program is known: `RunProgram` in place. */
  method StepProgram(fns: Program, engine: ExecutionEngine, robot: Robot, grid: Grid) returns (star: Option<(int, int)>)
    modifies engine, robot, grid
    ensures Step(World(engine.Data(), robot.Data(), grid.Data()), star)
            == RunProgram(old(World(engine.Data(), robot.Data(), grid.Data())), fns)
  {
    var fetched, ins := SkipLoop(fns, engine, grid, robot);
    if !fetched {
      return None;
    }
    star := StepInstruction(ins, fns, engine, robot, grid);
  }

  /** The instruction the loop stopped at, and what an error does: `RunInstruction` in place. */
  method StepInstruction(ins: Instruction, fns: Program, engine: ExecutionEngine, robot: Robot, grid: Grid)
    returns (star: Option<(int, int)>)
    modifies engine, robot, grid
    ensures Step(World(engine.Data(), robot.Data(), grid.Data()), star)
            == RunInstruction(ins, fns, old(World(engine.Data(), robot.Data(), grid.Data())))
  {
    var r := ExecuteInstruction(ins, fns, engine, robot, grid);
    if r.Err? {
      engine.SetError(r.error);
      robot.ResetToStart();
      star := None;
    } else {
      star := r.value;
    }
  }

  /** The `loop` of `execution_system` up to the instruction it executes; it moves only the engine. */
  method SkipLoop(fns: Program, engine: ExecutionEngine, grid: Grid, robot: Robot) returns (fetched: bool, ins: Instruction)
    modifies engine
    ensures var f := Chase(fns, old(engine.Data()), grid.Data(), robot.Data());
            (fetched <==> f.Fetched?) && f.engine == engine.Data() && (fetched ==> f.instruction == ins)
  {
    ghost var fetch := Chase(fns, engine.Data(), grid.Data(), robot.Data());
    while true
      invariant Chase(fns, engine.Data(), grid.Data(), robot.Data()) == fetch
      decreases |engine.callStack|, Remaining(fns, engine.Data())
    {
      var current := engine.currentFunction;
      var index := engine.currentInstruction;
      if current >= |fns| {
        engine.Stop();
        return false, Noop;
      }
      if index >= |fns[current]| {
        var ok := engine.ReturnFromFunction();
        if !ok {
          return false, Noop;
        }
        continue;
      }
      ins := fns[current][index];
      if ShouldSkip(ins, grid.Data(), robot.Data()) {
        engine.AdvanceInstruction();
        continue;
      }
      return true, ins;
    }
  }

  // ------------------------------------------------------------ bookkeeping

  /** What `update_star_counter_system` does to a progress record: store the count, and complete the level once it reaches the total. */
  function CountStars(p: ProblemState, count: nat, total: nat): (p2: ProblemState)
    ensures p2.starsCollected == count
    ensures p2.isCompleted <==> p.isCompleted || count >= total
    ensures p2 == p.(starsCollected := count, isCompleted := p2.isCompleted)
  {
    var q := p.(starsCollected := count);
    if count >= total then q.(isCompleted := true) else q
  }

  /** Recounting with the same grid again changes nothing: every event after the first is redundant. */
  lemma CountStarsIdempotent(p: ProblemState, count: nat, total: nat)
    ensures CountStars(CountStars(p, count, total), count, total) == CountStars(p, count, total)
  {
  }

  /**
   * `update_star_counter_system`: for each star event, recount the collected stars of
   * the grid into the current level's record; when they reach the level's total the
   * level is completed and the engine stopped.
   */
  method UpdateStarCounterSystem(events: seq<(int, int)>, manager: LevelManager, engine: ExecutionEngine, grid: Grid)
    modifies manager, engine
    ensures manager.currentLevelId == old(manager.currentLevelId) && manager.currentLevelType == old(manager.currentLevelType)
    ensures manager.tutorialLevels == old(manager.tutorialLevels) && manager.normalLevels == old(manager.normalLevels)
    ensures var level := old(manager.GetCurrentLevel());
            var count := CollectedStars(grid.tiles);
            if events == [] || level.None? || old(manager.GetProblemState(level.value.id)).None? then
              manager.States() == old(manager.States()) && engine.Data() == old(engine.Data())
            else
              var id := level.value.id;
              var total := level.value.totalStars;
              manager.States() == old(manager.States())[id := CountStars(old(manager.States())[id], count, total)]
              && engine.Data() == (if count >= total then old(engine.Data()).Stop() else old(engine.Data()))
  {
    var k := 0;
    while k < |events|
      invariant k <= |events|
      invariant manager.currentLevelId == old(manager.currentLevelId) && manager.currentLevelType == old(manager.currentLevelType)
      invariant manager.tutorialLevels == old(manager.tutorialLevels) && manager.normalLevels == old(manager.normalLevels)
      invariant var level := old(manager.GetCurrentLevel());
                var count := CollectedStars(grid.tiles);
                if k == 0 || level.None? || old(manager.GetProblemState(level.value.id)).None? then
                  manager.States() == old(manager.States()) && engine.Data() == old(engine.Data())
                else
                  var id := level.value.id;
                  var total := level.value.totalStars;
                  manager.States() == old(manager.States())[id := CountStars(old(manager.States())[id], count, total)]
                  && engine.Data() == (if count >= total then old(engine.Data()).Stop() else old(engine.Data()))
    {
      var level := manager.GetCurrentLevel();
      if level.Some? {
        var id := level.value.id;
        var total := level.value.totalStars;
        var count := CollectedStars(grid.tiles);
        var state := manager.GetProblemState(id);
        if state.Some? {
          var p := state.value.(starsCollected := count);
          if count >= total {
            p := p.(isCompleted := true);
            engine.Stop();
          }
          manager.PutProblemState(id, p);
          CountStarsIdempotent(old(manager.States())[id], count, total);
          StopResets(old(engine.Data()));
        }
      }
      k := k + 1;
    }
  }

  /**
   * What `check_completion_system` does to a progress record: store the count, check
   * completion, and mark a completed level's time as recorded.
   */
  function RecordCompletion(p: ProblemState, count: nat, total: nat): (p2: ProblemState)
    ensures p2.starsCollected == count
    ensures p2.isCompleted <==> p.isCompleted || count == total
    ensures p2.completionTimeRecorded <==> p.completionTimeRecorded || p2.isCompleted
    ensures p2 == p.(starsCollected := count, isCompleted := p2.isCompleted,
                     completionTimeRecorded := p2.completionTimeRecorded)
  {
    var q := p.(starsCollected := count).CheckCompletion(total);
    if q.isCompleted && !q.completionTimeRecorded then q.(completionTimeRecorded := true).RecordCompletionTime()
    else q
  }

  /** A level completed before stays completed through both bookkeeping systems. */
  lemma BookkeepingKeepsCompletion(p: ProblemState, count: nat, total: nat)
    requires p.isCompleted
    ensures CountStars(p, count, total).isCompleted && RecordCompletion(p, count, total).isCompleted
  {
  }

  /**
   * `check_completion_system`: only while not executing and with a current level,
   * record the grid's collected stars and the completion in the level's record; in
   * normal mode, report whether every normal level is now completed (time is up).
   */
  method CheckCompletionSystem(grid: Grid, manager: LevelManager, engine: ExecutionEngine) returns (timeUp: bool)
    modifies manager
    ensures manager.currentLevelId == old(manager.currentLevelId) && manager.currentLevelType == old(manager.currentLevelType)
    ensures manager.tutorialLevels == old(manager.tutorialLevels) && manager.normalLevels == old(manager.normalLevels)
    ensures var level := old(manager.GetCurrentLevel());
            if engine.IsExecuting() || level.None? then
              manager.States() == old(manager.States()) && !timeUp
            else
              var id := level.value.id;
              (manager.States() == if id in old(manager.States())
                                   then old(manager.States())[id := RecordCompletion(old(manager.States())[id], CollectedStars(grid.tiles), level.value.totalStars)]
                                   else old(manager.States()))
              && (timeUp <==> manager.currentLevelType == LevelType.Normal && manager.AreAllLevelsCompleted())
  {
    timeUp := false;
    if engine.IsExecuting() {
      return;
    }
    var level := manager.GetCurrentLevel();
    if level.None? {
      return;
    }
    var id := level.value.id;
    var total := level.value.totalStars;
    var count := CollectedStars(grid.tiles);
    var state := manager.GetProblemState(id);
    if state.Some? {
      var p := state.value.(starsCollected := count).CheckCompletion(total);
      if p.isCompleted && !p.completionTimeRecorded {
        p := p.(completionTimeRecorded := true).RecordCompletionTime();
      }
      manager.PutProblemState(id, p);
    }
    if manager.currentLevelType == LevelType.Normal {
      timeUp := manager.AreAllLevelsCompleted();
    }
  }
}
