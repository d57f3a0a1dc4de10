/**
 * Level switching (src/systems/level.rs): re-initialising the grid, its stars and
 * the robot from the level data when the player moves to another level, and the
 * first level's grid and robot when play starts.
 */
module LevelSystems {
  import opened Wrappers
  import opened Tiles
  import opened Grids
  import opened Robots
  import opened Levels
  import opened LevelManagement
  import opened Interpreter

  /** The game's screens (src/states/game.rs). */
  datatype GameState = LoadingTutorial | Tutorial | PlayerInfo | Loading | Menu | Editing | TimeUp

  /** The tiles with every star marked collected on a completed level, and uncollected otherwise. */
  function MarkStars(tiles: seq<Option<Tile>>, completed: bool): (marked: seq<Option<Tile>>)
    ensures |marked| == |tiles|
    ensures forall k :: 0 <= k < |tiles| ==>
              (marked[k].Some? <==> tiles[k].Some?)
              && (tiles[k].Some? ==> marked[k].value == tiles[k].value.(starCollected := completed && tiles[k].value.hasStar))
  {
    seq(|tiles|, k requires 0 <= k < |tiles| =>
      if tiles[k].Some? then Some(tiles[k].value.(starCollected := completed && tiles[k].value.hasStar)) else None)
  }

  /** On a completed level every star shows as collected; on any other level none does. */
  lemma {:induction false} MarkedStarCount(tiles: seq<Option<Tile>>, completed: bool)
    ensures CollectedStars(MarkStars(tiles, completed)) == (if completed then TotalStars(tiles) else 0)
    decreases |tiles|
  {
    if tiles != [] {
      var n := |tiles| - 1;
      MarkedStarCount(tiles[..n], completed);
      assert MarkStars(tiles, completed)[..n] == MarkStars(tiles[..n], completed);
    }
  }

  /** `for tile_opt in &mut grid.tiles`: sets each present tile's collected flag to `completed && has_star`, in place. */
  method MarkStarsInPlace(grid: Grid, completed: bool)
    modifies grid
    ensures grid.tiles == MarkStars(old(grid.tiles), completed)
    ensures grid.width == old(grid.width) && grid.height == old(grid.height)
  {
    var k := 0;
    while k < |grid.tiles|
      invariant k <= |grid.tiles| == |old(grid.tiles)|
      invariant grid.width == old(grid.width) && grid.height == old(grid.height)
      invariant grid.tiles[..k] == MarkStars(old(grid.tiles), completed)[..k]
      invariant grid.tiles[k..] == old(grid.tiles)[k..]
    {
      var tile := grid.tiles[k];
      if tile.Some? {
        grid.tiles := grid.tiles[k := Some(tile.value.(starCollected := completed && tile.value.hasStar))];
      }
      assert grid.tiles[k + 1..] == old(grid.tiles)[k + 1..] by {
        assert forall i :: k + 1 <= i < |grid.tiles| ==> grid.tiles[i] == old(grid.tiles)[k..][i - k];
      }
      k := k + 1;
    }
  }

  /**
   * One `SwitchLevelEvent` of `handle_level_switch_system`: switch the manager to the
   * target, restart the level's timer in its record, load the level's grid with its
   * stars marked by the completed flag, and put the robot on the level's start pose.
   * Without such a level only the manager's position changes.
   */
  method SwitchLevel(target: nat, manager: LevelManager, grid: Grid, robot: Robot)
    modifies manager, grid, robot
    ensures manager.currentLevelId == target && manager.currentLevelType == old(manager.currentLevelType)
    ensures manager.tutorialLevels == old(manager.tutorialLevels) && manager.normalLevels == old(manager.normalLevels)
    ensures var level := manager.GetCurrentLevel();
            if level.None? then
              manager.States() == old(manager.States()) && grid.Data() == old(grid.Data()) && robot.Data() == old(robot.Data())
            else
              var l := level.value;
              var known := l.id in old(manager.States());
              var completed := known && old(manager.States())[l.id].isCompleted;
              (manager.States() == if known then old(manager.States())[l.id := old(manager.States())[l.id].StartTimer(0.0)]
                                   else old(manager.States()))
              && grid.Data() == GridData(l.width, l.height, MarkStars(l.tiles, completed))
              && robot.Data() == RobotData(l.robotStartPos.0, l.robotStartPos.1, l.robotStartDir,
                                           l.robotStartPos.0, l.robotStartPos.1, l.robotStartDir)
  {
    manager.SwitchToLevel(target);
    var level := manager.GetCurrentLevel();
    if level.Some? {
      var l := level.value;
      var state := manager.GetProblemState(l.id);
      if state.Some? {
        manager.PutProblemState(l.id, state.value.StartTimer(0.0));
      }
      var after := manager.GetProblemState(l.id);
      var completed := if after.Some? then after.value.isCompleted else false;
      grid.width := l.width;
      grid.height := l.height;
      grid.tiles := l.tiles;
      MarkStarsInPlace(grid, completed);
      robot.x := l.robotStartPos.0;
      robot.y := l.robotStartPos.1;
      robot.direction := l.robotStartDir;
      robot.startX := l.robotStartPos.0;
      robot.startY := l.robotStartPos.1;
      robot.startDirection := l.robotStartDir;
    }
  }

  /** After a switch the collected stars shown are all of the level's stars if it was completed, and none otherwise. */
  lemma SwitchShowsCompletion(l: LevelData, completed: bool)
    ensures var g := GridData(l.width, l.height, MarkStars(l.tiles, completed));
            CollectedStars(g.tiles) == (if completed then TotalStars(l.tiles) else 0)
            && StarsOnlyCollected(GridData(l.width, l.height, MarkStars(l.tiles, false)), g)
  {
    MarkedStarCount(l.tiles, completed);
  }

  /** Two records of one level that differ at most in their timer: same programs, stars, completion and time. */
  predicate SameProgress(p: ProblemState, q: ProblemState) {
    p.functions == q.functions && p.starsCollected == q.starsCollected
    && p.isCompleted == q.isCompleted && p.completionTime == q.completionTime
  }

  /**
   * What a switch to the current level leaves: its grid with the stars marked by its
   * record's completed flag, the robot on its start pose, and a restarted timer.
   */
  predicate ShowsCurrentLevel(manager: LevelManager, grid: Grid, robot: Robot)
    reads manager, grid, robot
  {
    var level := manager.GetCurrentLevel();
    level.Some? ==>
      var l := level.value;
      var states := manager.States();
      var known := l.id in states;
      (known ==> states[l.id].startTime == 0.0 && !states[l.id].completionTimeRecorded)
      && grid.Data() == GridData(l.width, l.height, MarkStars(l.tiles, known && states[l.id].isCompleted))
      && robot.Data() == RobotData(l.robotStartPos.0, l.robotStartPos.1, l.robotStartDir,
                                   l.robotStartPos.0, l.robotStartPos.1, l.robotStartDir)
  }

  /** `handle_level_switch_system`: the switch events in order; the last one decides where the player ends up. */
  method HandleLevelSwitchSystem(targets: seq<nat>, manager: LevelManager, grid: Grid, robot: Robot)
    modifies manager, grid, robot
    ensures targets != [] ==> manager.currentLevelId == targets[|targets| - 1]
    ensures targets != [] ==> ShowsCurrentLevel(manager, grid, robot)
    ensures targets == [] ==> manager.currentLevelId == old(manager.currentLevelId)
    ensures manager.currentLevelType == old(manager.currentLevelType)
    ensures manager.tutorialLevels == old(manager.tutorialLevels) && manager.normalLevels == old(manager.normalLevels)
    ensures manager.States().Keys == old(manager.States()).Keys
    ensures forall id :: id in manager.States() ==> SameProgress(manager.States()[id], old(manager.States())[id])
  {
    var k := 0;
    while k < |targets|
      invariant k <= |targets|
      invariant k > 0 ==> manager.currentLevelId == targets[k - 1]
      invariant k > 0 ==> ShowsCurrentLevel(manager, grid, robot)
      invariant k == 0 ==> manager.currentLevelId == old(manager.currentLevelId)
      invariant manager.currentLevelType == old(manager.currentLevelType)
      invariant manager.tutorialLevels == old(manager.tutorialLevels) && manager.normalLevels == old(manager.normalLevels)
      invariant manager.States().Keys == old(manager.States()).Keys
      invariant forall id :: id in manager.States() ==> SameProgress(manager.States()[id], old(manager.States())[id])
    {
      SwitchLevel(targets[k], manager, grid, robot);
      k := k + 1;
    }
  }

  /**
   * `auto_start_first_level_system`: with a current level, build its grid (tiles as
   * loaded) and a robot on its start pose, and go to the tutorial or the editor by the
   * level type; without one, go back to loading.
   */
  method AutoStartFirstLevel(manager: LevelManager) returns (spawned: Option<(Grid, Robot)>, next: GameState)
    ensures var level := manager.GetCurrentLevel();
            (spawned.Some? <==> level.Some?)
            && (level.None? ==> next == Loading)
            && (level.Some? ==>
                  var l := level.value;
                  var (grid, robot) := spawned.value;
                  fresh(grid) && fresh(robot)
                  && grid.Data() == GridData(l.width, l.height, l.tiles)
                  && robot.Data() == RobotData(l.robotStartPos.0, l.robotStartPos.1, l.robotStartDir,
                                               l.robotStartPos.0, l.robotStartPos.1, l.robotStartDir)
                  && next == (if manager.currentLevelType == LevelType.Tutorial then GameState.Tutorial else Editing))
  {
    var level := manager.GetCurrentLevel();
    if level.None? {
      return None, Loading;
    }
    var l := level.value;
    var grid := new Grid(l.width, l.height, l.tiles);
    var robot := new Robot(l.robotStartPos.0, l.robotStartPos.1, l.robotStartDir);
    spawned := Some((grid, robot));
    next := if manager.currentLevelType == LevelType.Tutorial then GameState.Tutorial else Editing;
  }
}
