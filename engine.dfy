/**
 * The execution engine resource (src/resources/execution.rs): a program counter
 * (function, instruction), a stack of return frames, the run flags and the speed.
 * The Bevy timer it owns is abstracted to whether it fired on this tick.
 */
module Engine {
  import opened Wrappers

  /** The three replay speeds. */
  datatype ExecutionSpeed = Normal | Fast | VeryFast {

    /** `get_duration`: seconds per step, here in milliseconds (0.5 s, 0.25 s, 0.02 s). */
    function DurationMillis(): (ms: nat)
      ensures ms > 0
      ensures ms <= 500
    {
      match this
      case Normal => 500
      case Fast => 250
      case VeryFast => 20
    }

    /** `next`: the speed button steps to a faster speed, except that the fastest wraps to Normal. */
    function Next(): (s: ExecutionSpeed)
      ensures s != this
      ensures s.DurationMillis() < DurationMillis() <==> this != VeryFast
    {
      match this
      case Normal => Fast
      case Fast => VeryFast
      case VeryFast => Normal
    }

    /** `to_string`: the label shown on the speed button. */
    function Label(): (l: string)
      ensures |l| == 2 && l[0] == 'x'
      ensures this == Normal ==> l == "x1"
      ensures this == Fast ==> l == "x2"
      ensures this == VeryFast ==> l == "x5"
    {
      match this
      case Normal => "x1"
      case Fast => "x2"
      case VeryFast => "x5"
    }
  }

  /** Pressing the speed button three times returns to the same speed, and once or twice never does. */
  lemma SpeedCycle(s: ExecutionSpeed)
    ensures s.Next().Next().Next() == s
    ensures s.Next().Next() != s
  {
  }

  /** A saved return point: the caller's function and the index of its CallFunction instruction. */
  datatype Frame = Frame(func: nat, instr: nat)

  /** The value of the engine, without its timer. */
  datatype EngineData = EngineData(
    currentFunction: nat,
    currentInstruction: nat,
    callStack: seq<Frame>,
    executing: bool,
    paused: bool,
    speed: ExecutionSpeed,
    errorMessage: Option<string>,
    singleStep: bool)
  {
    /** `is_executing`: running and not paused. */
    predicate IsExecuting() {
      executing && !paused
    }

    predicate IsPaused() {
      paused
    }

    predicate IsStopped() {
      !executing
    }

    function StartExecution(): EngineData {
      this.(executing := true, paused := false, currentFunction := 0, currentInstruction := 0,
            callStack := [], errorMessage := None)
    }

    function Pause(): EngineData {
      this.(paused := true)
    }

    function Resume(): EngineData {
      this.(paused := false)
    }

    function Stop(): EngineData {
      this.(executing := false, paused := false, currentFunction := 0, currentInstruction := 0,
            callStack := [], errorMessage := None)
    }

    /** `set_error` stores the message and then calls `stop`, which clears it again. */
    function SetError(message: string): EngineData {
      this.(errorMessage := Some(message)).Stop()
    }

    function ClearError(): EngineData {
      this.(errorMessage := None)
    }

    function ChangeSpeed(): EngineData {
      this.(speed := speed.Next())
    }

    function SetSingleStep(value: bool): EngineData {
      this.(singleStep := value)
    }

    function AdvanceInstruction(): EngineData {
      this.(currentInstruction := currentInstruction + 1)
    }

    function CallFunction(functionId: nat): EngineData {
      this.(callStack := callStack + [Frame(currentFunction, currentInstruction)],
            currentFunction := functionId, currentInstruction := 0)
    }

    /** `return_from_function`: pop a frame and resume after its call; with no frame, stop. */
    function ReturnFromFunction(): (EngineData, bool) {
      if |callStack| > 0 then
        var top := callStack[|callStack| - 1];
        (this.(callStack := callStack[..|callStack| - 1],
               currentFunction := top.func, currentInstruction := top.instr + 1), true)
      else
        (Stop(), false)
    }

    /**
     * `tick`: whether an instruction is due. A pending single step is consumed and
     * pauses the run; otherwise the answer is whether the timer fired.
     */
    function Tick(fired: bool): (EngineData, bool) {
      if IsExecuting() then
        if singleStep then (this.(singleStep := false).Pause(), true)
        else (this, fired)
      else (this, false)
    }
  }

  /** `ExecutionEngine::new`: stopped, at (0, 0), Normal speed, no error, no single step. */
  const InitialEngine := EngineData(0, 0, [], false, false, Normal, None, false)

  /** Starting a run: executing, not paused, at (0, 0), with an empty stack and no error; speed and single-step kept. */
  lemma StartExecutionResets(e: EngineData)
    ensures var s := e.StartExecution();
            s.IsExecuting() && !s.IsPaused() && !s.IsStopped()
            && s.currentFunction == 0 && s.currentInstruction == 0 && s.callStack == []
            && s.errorMessage == None && s.speed == e.speed && s.singleStep == e.singleStep
  {
  }

  /** Stopping: not executing, not paused, at (0, 0), empty stack, no error; stopping again changes nothing. */
  lemma StopResets(e: EngineData)
    ensures var s := e.Stop();
            s.IsStopped() && !s.IsPaused() && !s.IsExecuting()
            && s.currentFunction == 0 && s.currentInstruction == 0 && s.callStack == []
            && s.errorMessage == None && s.speed == e.speed && s.singleStep == e.singleStep
            && s.Stop() == s
  {
  }

  /** Reporting an error leaves no message behind: the result is exactly a stop. */
  lemma SetErrorDiscardsMessage(e: EngineData, message: string)
    ensures e.SetError(message) == e.Stop()
    ensures e.SetError(message).errorMessage == None
  {
  }

  /** Pause and resume change only the paused flag, and undo each other on a running engine. */
  lemma PauseAndResume(e: EngineData)
    ensures e.Pause() == e.(paused := true) && e.Resume() == e.(paused := false)
    ensures e.Pause().IsPaused() && !e.Pause().IsExecuting()
    ensures e.Resume().IsExecuting() <==> !e.IsStopped()
    ensures !e.paused ==> e.Pause().Resume() == e
  {
  }

  /** A call pushes one frame and jumps to the start of the callee. */
  lemma CallPushesFrame(e: EngineData, f: nat)
    ensures var c := e.CallFunction(f);
            |c.callStack| == |e.callStack| + 1
            && c.callStack[..|e.callStack|] == e.callStack
            && c.callStack[|e.callStack|] == Frame(e.currentFunction, e.currentInstruction)
            && c.currentFunction == f && c.currentInstruction == 0
  {
  }

  /** Returning right after a call resumes the caller one past the call, with the caller's stack. */
  lemma ReturnUndoesCall(e: EngineData, f: nat)
    ensures var (r, ok) := e.CallFunction(f).ReturnFromFunction();
            ok && r == e.AdvanceInstruction()
  {
    var c := e.CallFunction(f);
    assert c.callStack[..|c.callStack| - 1] == e.callStack;
  }

  /** Returning with an empty stack is a stop and reports failure; otherwise the stack shrinks by one. */
  lemma ReturnOnEmptyStackStops(e: EngineData)
    ensures var (r, ok) := e.ReturnFromFunction();
            (ok <==> |e.callStack| > 0)
            && (!ok ==> r == e.Stop())
            && (ok ==> |r.callStack| == |e.callStack| - 1 && r.executing == e.executing && r.paused == e.paused)
  {
  }

  /** A tick does nothing and reports nothing unless the engine is executing. */
  lemma TickIdleWhenNotExecuting(e: EngineData, fired: bool)
    requires !e.IsExecuting()
    ensures e.Tick(fired) == (e, false)
  {
  }

  /**
   * A running tick: a pending single step is reported as due regardless of the timer,
   * clears the flag and pauses; without one the state is unchanged and the timer decides.
   */
  lemma TickWhileExecuting(e: EngineData, fired: bool)
    requires e.IsExecuting()
    ensures var (s, due) := e.Tick(fired);
            (e.singleStep ==> due && !s.singleStep && s.IsPaused() && s == e.(singleStep := false, paused := true))
            && (!e.singleStep ==> s == e && due == fired)
  {
  }

  /** A single step runs exactly one instruction: the tick after it reports nothing, whatever the timer does. */
  lemma SingleStepRunsOnce(e: EngineData, f1: bool, f2: bool)
    requires e.IsExecuting() && e.singleStep
    ensures var (s, due) := e.Tick(f1);
            due && s.Tick(f2) == (s, false)
  {
  }

  /** The engine resource, updated in place by the systems. */
  class ExecutionEngine {
    var currentFunction: nat
    var currentInstruction: nat
    var callStack: seq<Frame>
    var executing: bool
    var paused: bool
    var speed: ExecutionSpeed
    var errorMessage: Option<string>
    var singleStep: bool

    function Data(): EngineData
      reads this
    {
      EngineData(currentFunction, currentInstruction, callStack, executing, paused, speed, errorMessage, singleStep)
    }

    constructor ()
      ensures Data() == InitialEngine
    {
      currentFunction := 0;
      currentInstruction := 0;
      callStack := [];
      executing := false;
      paused := false;
      speed := Normal;
      errorMessage := None;
      singleStep := false;
    }

    method StartExecution()
      modifies this
      ensures Data() == old(Data()).StartExecution()
    {
      executing := true;
      paused := false;
      currentFunction := 0;
      currentInstruction := 0;
      callStack := [];
      errorMessage := None;
    }

    method Pause()
      modifies this
      ensures Data() == old(Data()).Pause()
    {
      paused := true;
    }

    method Resume()
      modifies this
      ensures Data() == old(Data()).Resume()
    {
      paused := false;
    }

    method Stop()
      modifies this
      ensures Data() == old(Data()).Stop()
    {
      executing := false;
      paused := false;
      currentFunction := 0;
      currentInstruction := 0;
      callStack := [];
      errorMessage := None;
    }

    method SetError(message: string)
      modifies this
      ensures Data() == old(Data()).SetError(message)
    {
      errorMessage := Some(message);
      Stop();
    }

    /** `get_error`: the stored message, if any. */
    function GetError(): (m: Option<string>)
      reads this
      ensures m == Data().errorMessage
    {
      errorMessage
    }

    method ClearError()
      modifies this
      ensures Data() == old(Data()).ClearError()
    {
      errorMessage := None;
    }

    method ChangeSpeed()
      modifies this
      ensures Data() == old(Data()).ChangeSpeed()
    {
      speed := speed.Next();
    }

    function IsExecuting(): (b: bool)
      reads this
      ensures b <==> executing && !paused
    {
      executing && !paused
    }

    function IsPaused(): (b: bool)
      reads this
      ensures b == Data().IsPaused()
    {
      paused
    }

    function IsStopped(): (b: bool)
      reads this
      ensures b <==> !executing
    {
      !executing
    }

    method Tick(fired: bool) returns (due: bool)
      modifies this
      ensures (Data(), due) == old(Data()).Tick(fired)
    {
      if IsExecuting() {
        if singleStep {
          singleStep := false;
          Pause();
          due := true;
        } else {
          due := fired;
        }
      } else {
        due := false;
      }
    }

    method AdvanceInstruction()
      modifies this
      ensures Data() == old(Data()).AdvanceInstruction()
    {
      currentInstruction := currentInstruction + 1;
    }

    method CallFunction(functionId: nat)
      modifies this
      ensures Data() == old(Data()).CallFunction(functionId)
    {
      callStack := callStack + [Frame(currentFunction, currentInstruction)];
      currentFunction := functionId;
      currentInstruction := 0;
    }

    method ReturnFromFunction() returns (ok: bool)
      modifies this
      ensures (Data(), ok) == old(Data()).ReturnFromFunction()
    {
      if |callStack| > 0 {
        var top := callStack[|callStack| - 1];
        callStack := callStack[..|callStack| - 1];
        currentFunction := top.func;
        currentInstruction := top.instr + 1;
        ok := true;
      } else {
        Stop();
        ok := false;
      }
    }

    method SetSingleStep(value: bool)
      modifies this
      ensures Data() == old(Data()).SetSingleStep(value)
    {
      singleStep := value;
    }
  }
}
