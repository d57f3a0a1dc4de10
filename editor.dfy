/**
 * The program editor's slot operations (src/systems/ui.rs): colouring and
 * uncolouring an instruction, padding a function with Noop, the effect of a click
 * on a slot, clearing every function of the level and resetting the level's state.
 */
module Editor {
  import opened Wrappers
  import opened Tiles
  import opened Controls
  import opened Grids
  import opened Robots
  import opened Levels
  import opened LevelManagement
  import opened Interpreter
  import opened LevelSystems

  /** `EguiEditState`: what the palette has selected, and whether a click keeps it selected. */
  datatype EditState = EditState(
    selectedInstruction: Option<Instruction>,
    selectedCondition: Option<TileColor>,
    keepSelection: bool)

  /** `EguiEditState::default`: nothing selected, selection kept after a click. */
  const DefaultEditState := EditState(None, None, true)

  // ------------------------------------------------------------ colour layers

  /** `unwrap_conditional`: the instruction inside a conditional; any other instruction as it is. */
  function UnwrapConditional(ins: Instruction): (r: Instruction)
    ensures ins.IsConditional() ==> r == ins.inner
    ensures !ins.IsConditional() ==> r == ins
  {
    match ins
    case ConditionalRed(inner) => inner
    case ConditionalGreen(inner) => inner
    case ConditionalBlue(inner) => inner
    case _ => ins
  }

  /** `wrap_with_condition`: one conditional layer of colour `c` around `ins`; Gray adds none. */
  function WrapWithCondition(ins: Instruction, c: TileColor): (r: Instruction)
    ensures c == Gray ==> r == ins
    ensures c != Gray ==> r.IsConditional() && r.inner == ins && r.ConditionColor() == Some(c)
  {
    match c
    case Red => ConditionalRed(ins)
    case Green => ConditionalGreen(ins)
    case Blue => ConditionalBlue(ins)
    case Gray => ins
  }

  /** Wrapping and unwrapping undo each other, one layer at a time. */
  lemma WrapRoundTrip(ins: Instruction, c: TileColor)
    ensures c != Gray ==> UnwrapConditional(WrapWithCondition(ins, c)) == ins
    ensures c != Gray ==> WrapWithCondition(ins, c).ConditionColor() == Some(c)
    ensures ins.IsConditional() ==> WrapWithCondition(UnwrapConditional(ins), ins.ConditionColor().value) == ins
    ensures !ins.IsConditional() ==> ins.ConditionColor() == None && UnwrapConditional(ins) == ins
  {
  }

  // -------------------------------------------------------------- padding

  /** `instructions` grown with Noop until `slot` is an index of it; unchanged when it already is. */
  function Padded(instructions: seq<Instruction>, slot: nat): (r: seq<Instruction>)
    ensures |r| == if slot < |instructions| then |instructions| else slot + 1
    ensures r[..|instructions|] == instructions
    ensures forall k :: |instructions| <= k < |r| ==> r[k] == Noop
  {
    if slot < |instructions| then instructions else instructions + seq(slot + 1 - |instructions|, _ => Noop)
  }

  /** `ensure_function_size`: push Noop while the function has no slot `slot`. */
  method EnsureFunctionSize(instructions: seq<Instruction>, slot: nat) returns (padded: seq<Instruction>)
    ensures padded == Padded(instructions, slot)
    ensures slot < |padded|
  {
    padded := instructions;
    while |padded| <= slot
      invariant |instructions| <= |padded| <= if slot < |instructions| then |instructions| else slot + 1
      invariant padded[..|instructions|] == instructions
      invariant forall k :: |instructions| <= k < |padded| ==> padded[k] == Noop
      decreases slot + 1 - |padded|
    {
      padded := padded + [Noop];
    }
  }

  // ------------------------------------------------------------ slot click

  /**
   * The instruction a click leaves in a slot holding `current`, when the palette has
   * something selected: an instruction alone keeps the slot's colour, a condition
   * alone recolours (Gray uncolours) the slot's instruction, and both together
   * replace the slot with the instruction in that colour.
   */
  function SlotAfter(selected: Option<Instruction>, condition: Option<TileColor>, current: Instruction): (r: Instruction)
    requires selected.Some? || condition.Some?
    ensures selected.Some? && condition.None? && current.IsConditional() ==>
              r.ConditionColor() == current.ConditionColor() && UnwrapConditional(r) == selected.value
    ensures selected.Some? && condition.None? && !current.IsConditional() ==> r == selected.value
    ensures selected.None? && condition == Some(Gray) ==> r == UnwrapConditional(current)
    ensures selected.None? && condition.Some? && condition.value != Gray ==>
              r.ConditionColor() == condition && UnwrapConditional(r) == UnwrapConditional(current)
    ensures selected.Some? && condition == Some(Gray) ==> r == selected.value
    ensures selected.Some? && condition.Some? && condition.value != Gray ==>
              r.ConditionColor() == condition && UnwrapConditional(r) == selected.value
  {
    match (selected, condition)
    case (Some(i), None) =>
      var existing := current.ConditionColor();
      if existing.Some? then WrapWithCondition(i, existing.value) else i
    case (None, Some(c)) =>
      if c == Gray then UnwrapConditional(current)
      else WrapWithCondition(UnwrapConditional(current), c)
    case (Some(i), Some(c)) =>
      if c == Gray then i else WrapWithCondition(i, c)
  }

  /** Recolouring a slot twice is recolouring it once with the second colour, unless the first was Gray. */
  lemma RecolourOverrides(current: Instruction, c1: TileColor, c2: TileColor)
    requires c1 != Gray
    ensures SlotAfter(None, Some(c2), SlotAfter(None, Some(c1), current)) == SlotAfter(None, Some(c2), current)
  {
  }

  /**
   * `handle_slot_click_simple`, as a value: the edit state and the function after a click
   * on `slot`. With a selection the function is padded to the slot and only the slot is
   * rewritten, and a selection not kept is dropped; with none, an existing slot is emptied.
   */
  function Click(s: EditState, instructions: seq<Instruction>, slot: nat): (r: (EditState, seq<Instruction>))
    ensures var (s2, f2) := r;
            |instructions| <= |f2|
            && (forall k :: 0 <= k < |instructions| && k != slot ==> f2[k] == instructions[k])
            && s2.keepSelection == s.keepSelection
    ensures var (s2, f2) := r;
            s.selectedInstruction.None? && s.selectedCondition.None? ==>
              s2 == s && |f2| == |instructions| && (slot < |instructions| ==> f2[slot] == Noop)
    ensures var (s2, f2) := r;
            (s.selectedInstruction.Some? || s.selectedCondition.Some?) ==>
              |f2| == |Padded(instructions, slot)| && slot < |f2|
              && (forall k :: |instructions| <= k < |f2| && k != slot ==> f2[k] == Noop)
              && f2[slot] == SlotAfter(s.selectedInstruction, s.selectedCondition, Padded(instructions, slot)[slot])
              && s2 == if s.keepSelection then s else EditState(None, None, false)
  {
    if s.selectedInstruction.None? && s.selectedCondition.None? then
      (s, if slot < |instructions| then instructions[slot := Noop] else instructions)
    else
      var padded := Padded(instructions, slot);
      // The source clears only the selected parts; the others are None already.
      (if s.keepSelection then s else s.(selectedInstruction := None, selectedCondition := None),
       padded[slot := SlotAfter(s.selectedInstruction, s.selectedCondition, padded[slot])])
  }

  /**
   * With the selection kept, clicking the same slot twice with a plain (uncoloured)
   * instruction selected is the same as clicking once.
   */
  lemma InstructionClickIsIdempotent(s: EditState, instructions: seq<Instruction>, slot: nat)
    requires s.selectedInstruction.Some? && !s.selectedInstruction.value.IsConditional()
    requires s.selectedCondition.None? && s.keepSelection
    ensures var (s1, f1) := Click(s, instructions, slot);
            Click(s1, f1, slot) == (s1, f1)
  {
    var (s1, f1) := Click(s, instructions, slot);
    var (s2, f2) := Click(s1, f1, slot);
    assert Padded(f1, slot) == f1;
    var i := s.selectedInstruction.value;
    assert SlotAfter(Some(i), None, f1[slot]) == f1[slot] by {
      if !f1[slot].IsConditional() {
        assert f1[slot] == i;
      }
    }
    assert f2 == f1;
  }

  /** `handle_slot_click_simple`: pads the instructions, then writes the clicked slot in place. */
  method HandleSlotClick(s: EditState, instructions: seq<Instruction>, slot: nat)
    returns (s2: EditState, f2: seq<Instruction>)
    ensures (s2, f2) == Click(s, instructions, slot)
  {
    s2 := s;
    match (s.selectedInstruction, s.selectedCondition)
    case (None, None) =>
      f2 := instructions;
      if slot < |f2| {
        f2 := f2[slot := Noop];
      }
    case _ =>
      f2 := EnsureFunctionSize(instructions, slot);
      f2 := f2[slot := SlotAfter(s.selectedInstruction, s.selectedCondition, f2[slot])];
      if !s.keepSelection {
        s2 := s2.(selectedInstruction := None, selectedCondition := None);
      }
  }

  // ------------------------------------------------------ clear and reset

  /** Every function emptied, as many functions as before. */
  function Cleared(functions: Program): (r: Program)
    ensures |r| == |functions|
    ensures forall k :: 0 <= k < |r| ==> r[k] == []
  {
    seq(|functions|, _ => [])
  }

  /** A cleared program runs nothing: a tick changes neither the robot nor the grid and collects no star. */
  lemma ClearedProgramIsInert(w: World, functions: Program, fired: bool)
    ensures var s := SystemStep(w, Some(Cleared(functions)), fired);
            s.world.robot == w.robot && s.world.grid == w.grid && s.star.None?
  {
    var (e1, due) := w.engine.Tick(fired);
    var f := Chase(Cleared(functions), e1, w.grid, w.robot);
    assert !f.Fetched?;
  }

  /**
   * `clear_all_instructions`: empties each function of the current level's record in
   * place. Without a current level or a record nothing changes.
   */
  method ClearAllInstructions(manager: LevelManager)
    modifies manager
    ensures var level := old(manager.GetCurrentLevel());
            if level.Some? && level.value.id in old(manager.States()) then
              var p := old(manager.States())[level.value.id];
              manager.States() == old(manager.States())[level.value.id := p.(functions := Cleared(p.functions))]
            else manager.States() == old(manager.States())
    ensures manager.currentLevelId == old(manager.currentLevelId) && manager.currentLevelType == old(manager.currentLevelType)
    ensures manager.tutorialLevels == old(manager.tutorialLevels) && manager.normalLevels == old(manager.normalLevels)
  {
    var level := manager.GetCurrentLevel();
    if level.None? {
      return;
    }
    var id := level.value.id;
    var state := manager.GetProblemState(id);
    if state.None? {
      return;
    }
    var functions := state.value.functions;
    var k := 0;
    while k < |functions|
      invariant k <= |functions| == |state.value.functions|
      invariant forall j :: 0 <= j < k ==> functions[j] == []
      invariant functions[k..] == state.value.functions[k..]
    {
      functions := functions[k := []];
      k := k + 1;
    }
    assert functions == Cleared(state.value.functions);
    manager.PutProblemState(id, state.value.(functions := functions));
  }

  /**
   * `reset_level_state`: the robot goes back to its start pose; on a level not yet
   * completed every star is shown uncollected again and the record's star count is
   * zeroed. A completed level keeps its grid and its record; a level without a
   * record counts as not completed.
   */
  method ResetLevelState(robot: Robot, grid: Grid, manager: LevelManager)
    modifies robot, grid, manager
    ensures robot.Data() == old(robot.Data()).ResetToStart()
    ensures var level := old(manager.GetCurrentLevel());
            var reset := level.Some? && !(level.value.id in old(manager.States()) && old(manager.States())[level.value.id].isCompleted);
            (reset ==> grid.Data() == GridData(old(grid.width), old(grid.height), MarkStars(old(grid.tiles), false))
                       && CollectedStars(grid.tiles) == 0
                       && manager.States() == if level.value.id in old(manager.States())
                                              then old(manager.States())[level.value.id := old(manager.States())[level.value.id].ResetStars()]
                                              else old(manager.States()))
            && (!reset ==> grid.Data() == old(grid.Data()) && manager.States() == old(manager.States()))
    ensures manager.currentLevelId == old(manager.currentLevelId) && manager.currentLevelType == old(manager.currentLevelType)
    ensures manager.tutorialLevels == old(manager.tutorialLevels) && manager.normalLevels == old(manager.normalLevels)
  {
    robot.ResetToStart();
    var level := manager.GetCurrentLevel();
    if level.Some? {
      var id := level.value.id;
      var state := manager.GetProblemState(id);
      var completed := if state.Some? then state.value.isCompleted else false;
      if !completed {
        MarkStarsInPlace(grid, false);
        MarkedStarCount(old(grid.tiles), false);
        if state.Some? {
          manager.PutProblemState(id, state.value.ResetStars());
        }
      }
    }
  }
}
