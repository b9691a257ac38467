/** How run_inference (dev/windows/mpv/rife_runtime.cpp) shares the immediate context
    with the presenting thread: locking, mapping and waiting on every path.
    Each CUDA, TensorRT and D3D11 call is an event that may succeed or fail. */
module InferenceDiscipline {
  import opened Wrappers

  datatype Call =
    | Enter | Swap | Restore | Leave                    // D3D11ContextBlock
    | ConvertInput | WaitInput
    | Map | Unmap
    | RecordEvent | SyncEvent | ElapsedTime             // profiling only
    | GetPointer | CompareSizes | BindTensors
    | Enqueue | SyncStream
    | ConvertOutput | WaitOutput

  datatype Event = Event(call: Call, ok: bool)

  // ---------------------------------------------------------------- the rules

  /** Whose state the immediate context holds. A swap that yields no caller state leaves
      it unsaved, and swapping back then loses it. */
  datatype Context = Callers | Runtimes | Unsaved | Lost

  /** How far the inference has come; no stage is skipped. */
  datatype Stage =
    | Fresh | Converting | Converted
    | InputKnown | OutputKnown | Compared | Bound | Enqueued | Inferred
    | Emitting | Done

  datatype State = State(locked: bool, context: Context, mapped: bool, stage: Stage,
                         failed: bool,  // some call failed
                         stuck: bool)   // an unmap, or a context block while mapped, failed

  const START := State(false, Callers, false, Fresh, false, false)

  /** Once a call has failed there is only cleaning up to do. */
  predicate Allowed(s: State, call: Call) {
    match call
    case Enter => !s.locked
    case Swap => s.locked && s.context == Callers
    case Restore => s.locked && (s.context == Runtimes || s.context == Unsaved)
    case Leave => s.locked && (s.context == Callers || s.context == Lost)
    case ConvertInput => s.locked && s.context == Runtimes && s.stage == Fresh && !s.failed
    case WaitInput => !s.locked && s.stage == Converting && !s.failed
    case Map => s.locked && s.context == Runtimes && s.stage == Converted && !s.mapped && !s.failed
    case Unmap => s.locked && s.context == Runtimes && s.mapped
    case GetPointer => !s.locked && s.mapped && s.stage in {Converted, InputKnown} && !s.failed
    case CompareSizes => !s.locked && s.mapped && s.stage == OutputKnown && !s.failed
    case BindTensors => !s.locked && s.mapped && s.stage == Compared && !s.failed
    case Enqueue => !s.locked && s.mapped && s.stage == Bound && !s.failed
    case SyncStream => !s.locked && s.mapped && s.stage == Enqueued && !s.failed
    case ElapsedTime => s.stage == Inferred && !s.failed
    case ConvertOutput => s.locked && s.context == Runtimes && s.stage == Inferred && !s.mapped && !s.failed
    case WaitOutput => !s.locked && s.stage == Emitting && !s.failed
    case SyncEvent => s.locked && s.context == Runtimes
    case RecordEvent => true
  }

  /** The stage after a call that succeeded. */
  function Advanced(stage: Stage, call: Call): Stage {
    match call
    case WaitInput => Converted
    case GetPointer => if stage == Converted then InputKnown else OutputKnown
    case CompareSizes => Compared
    case BindTensors => Bound
    case Enqueue => Enqueued
    case SyncStream => Inferred
    case WaitOutput => Done
    case _ => stage
  }

  function After(s: State, e: Event): State {
    var t := s.(failed := s.failed || !e.ok, stage := if e.ok then Advanced(s.stage, e.call) else s.stage);
    match e.call
    case Enter => t.(locked := true)
    case Swap => t.(context := if e.ok then Runtimes else Unsaved, stuck := s.stuck || (s.mapped && !e.ok))
    case Restore => t.(context := if s.context == Unsaved then Lost else Callers)
    case Leave => t.(locked := false)
    case ConvertInput => t.(stage := Converting)
    case Map => t.(mapped := e.ok)
    case Unmap => t.(mapped := !e.ok, stuck := s.stuck || !e.ok)
    case ConvertOutput => t.(stage := Emitting)
    case _ => t
  }

  /** The state after a log, None if some call broke a rule. */
  function Monitor(log: seq<Event>): Option<State> {
    if log == [] then Some(START)
    else
      var before, e := Monitor(log[..|log| - 1]), log[|log| - 1];
      if before.Some? && Allowed(before.value, e.call) then Some(After(before.value, e)) else None
  }

  /** Some profiling event was waited for. */
  predicate MadeSync(log: seq<Event>) {
    log != [] && (log[|log| - 1].call == SyncEvent || MadeSync(log[..|log| - 1]))
  }

  // ---------------------------------------------------------------- what a whole run calls

  function Calls(log: seq<Event>): seq<Call> {
    if log == [] then [] else Calls(log[..|log| - 1]) + [log[|log| - 1].call]
  }

  // Each part of the script as what it adds to the calls before it.

  function InBlock(before: seq<Call>): seq<Call> {
    before + [Enter] + [Swap]
  }

  function BlockLeft(before: seq<Call>): seq<Call> {
    before + [Restore] + [Leave]
  }

  /** Profiling records an event behind the call and waits for it. */
  function Timed(before: seq<Call>, profiling: bool): seq<Call> {
    if profiling then before + [RecordEvent] + [SyncEvent] else before
  }

  function Inputs(before: seq<Call>): seq<Call> {
    BlockLeft(InBlock(before) + [ConvertInput]) + [WaitInput]
  }

  function Outputs(before: seq<Call>): seq<Call> {
    BlockLeft(InBlock(before) + [ConvertOutput]) + [WaitOutput]
  }

  function Mapping(before: seq<Call>, call: Call, profiling: bool): seq<Call> {
    BlockLeft(Timed(InBlock(before) + [call], profiling))
  }

  function Bindings(before: seq<Call>): seq<Call> {
    before + [GetPointer] + [GetPointer] + [CompareSizes] + [BindTensors]
  }

  function Launched(before: seq<Call>, profiling: bool): seq<Call> {
    if profiling then before + [RecordEvent] + [Enqueue] + [RecordEvent] else before + [Enqueue]
  }

  function Inferring(before: seq<Call>, profiling: bool): seq<Call> {
    var synced := Launched(Bindings(before), profiling) + [SyncStream];
    if profiling then synced + [ElapsedTime] else synced
  }

  /** All calls of a run in which nothing fails. */
  function Script(profiling: bool): seq<Call> {
    Outputs(Mapping(Inferring(Mapping(Inputs([]), Map, profiling), profiling), Unmap, profiling))
  }

  // ---------------------------------------------------------------- run_inference

  class Inference {
    const outcome: nat -> bool
    const profiling: bool
    var log: seq<Event>

    constructor (outcome: nat -> bool, profiling: bool)
      ensures log == [] && this.outcome == outcome && this.profiling == profiling
    {
      this.outcome, this.profiling, log := outcome, profiling, [];
    }

    ghost predicate In(s: State)
      reads this
    {
      Monitor(log) == Some(s)
    }

    /** A call that the environment may let fail. */
    method Try(call: Call, ghost s: State) returns (ok: bool)
      requires In(s) && Allowed(s, call)
      modifies this
      ensures In(After(s, Event(call, ok)))
      ensures MadeSync(log) == (old(MadeSync(log)) || call == SyncEvent)
      ensures Calls(log) == old(Calls(log)) + [call]
    {
      ok := outcome(|log|);
      Extended(log, Event(call, ok));
      log := log + [Event(call, ok)];
    }

    /** A call without a result to check. */
    method Do(call: Call, ghost s: State)
      requires In(s) && Allowed(s, call)
      modifies this
      ensures In(After(s, Event(call, true)))
      ensures MadeSync(log) == (old(MadeSync(log)) || call == SyncEvent)
      ensures Calls(log) == old(Calls(log)) + [call]
    {
      Extended(log, Event(call, true));
      log := log + [Event(call, true)];
    }

    method OpenContextBlock(ghost s: State) returns (active: bool)
      requires In(s) && !s.locked && s.context == Callers
      modifies this
      ensures active ==> In(s.(locked := true, context := Runtimes))
      ensures !active ==> In(s.(failed := true, stuck := s.stuck || s.mapped, context := Lost))
      ensures active ==> Calls(log) == InBlock(old(Calls(log)))
      ensures MadeSync(log) == old(MadeSync(log))
    {
      Do(Enter, s);
      ghost var inside := s.(locked := true);
      active := Try(Swap, inside);
      if !active {
        ghost var unsaved := After(inside, Event(Swap, false));
        Do(Restore, unsaved);
        Do(Leave, unsaved.(context := Lost));
      }
    }

    method CloseContextBlock(ghost s: State)
      requires In(s) && s.locked && s.context == Runtimes
      modifies this
      ensures In(s.(locked := false, context := Callers))
      ensures Calls(log) == BlockLeft(old(Calls(log)))
      ensures MadeSync(log) == old(MadeSync(log))
    {
      Do(Restore, s);
      Do(Leave, s.(context := Callers));
    }

    method ConvertInputs() returns (ok: bool)
      requires In(START)
      modifies this
      ensures ok ==> In(START.(stage := Converted))
      ensures !ok ==> In(START.(failed := true, context := Lost)) || In(START.(stage := Converting, failed := true))
      ensures ok ==> Calls(log) == Inputs(old(Calls(log)))
      ensures MadeSync(log) == old(MadeSync(log))
    {
      ok := OpenContextBlock(START);
      if !ok {
        return;
      }
      Do(ConvertInput, START.(locked := true, context := Runtimes));
      CloseContextBlock(START.(locked := true, context := Runtimes, stage := Converting));
      ok := Try(WaitInput, START.(stage := Converting));
    }

    /** Maps under the lock; what a failed profiling event leaves mapped is unmapped
        at once, without looking at the result. */
    method MapResources(ghost s: State) returns (ok: bool)
      requires In(s) && s == START.(stage := Converted)
      modifies this
      ensures ok ==> In(s.(mapped := true))
      ensures !ok ==>
        || In(s.(failed := true, context := Lost)) || In(s.(failed := true))
        || In(s.(failed := true, mapped := true, stuck := true))
      ensures ok ==> Calls(log) == Mapping(old(Calls(log)), Map, profiling)
      ensures old(MadeSync(log)) || (ok && profiling) ==> MadeSync(log)
      ensures MadeSync(log) ==> old(MadeSync(log)) || profiling
    {
      ok := OpenContextBlock(s);
      if !ok {
        return;
      }
      ghost var inside := s.(locked := true, context := Runtimes);
      ok := Try(Map, inside);
      if !ok {
        CloseContextBlock(inside.(failed := true));
        return;
      }
      if profiling {
        ok := Try(RecordEvent, inside.(mapped := true));
        if ok {
          ok := Try(SyncEvent, inside.(mapped := true));
        }
        if !ok {
          ghost var mapped := inside.(mapped := true, failed := true);
          var unmapped := Try(Unmap, mapped);
          CloseContextBlock(After(mapped, Event(Unmap, unmapped)));
          return;
        }
      }
      CloseContextBlock(inside.(mapped := true));
    }

    method GetPointers(ghost s: State) returns (ok: bool)
      requires In(s) && s == START.(stage := Converted, mapped := true)
      modifies this
      ensures ok ==> In(s.(stage := OutputKnown)) && Calls(log) == old(Calls(log)) + [GetPointer] + [GetPointer]
      ensures !ok ==> FailedFrom(s)
      ensures MadeSync(log) == old(MadeSync(log))
    {
      ok := Try(GetPointer, s);
      if ok {
        ok := Try(GetPointer, s.(stage := InputKnown));
      }
    }

    method Bind(ghost s: State) returns (ok: bool)
      requires In(s) && s == START.(stage := Converted, mapped := true)
      modifies this
      ensures ok ==> In(s.(stage := Bound)) && Calls(log) == Bindings(old(Calls(log)))
      ensures !ok ==> FailedFrom(s)
      ensures MadeSync(log) == old(MadeSync(log))
    {
      ok := GetPointers(s);
      if ok {
        ok := Try(CompareSizes, s.(stage := OutputKnown));
      }
      if ok {
        ok := Try(BindTensors, s.(stage := Compared));
      }
    }

    method Launch(ghost s: State) returns (ok: bool)
      requires In(s) && s == START.(stage := Bound, mapped := true)
      modifies this
      ensures ok ==> In(s.(stage := Enqueued)) && Calls(log) == Launched(old(Calls(log)), profiling)
      ensures !ok ==> FailedFrom(s)
      ensures MadeSync(log) == old(MadeSync(log))
    {
      ok := true;
      if profiling {
        ok := Try(RecordEvent, s);
      }
      if ok {
        ok := Try(Enqueue, s);
      }
      if ok && profiling {
        ok := Try(RecordEvent, s.(stage := Enqueued));
      }
    }

    /** The state is as before but for a failure and the stage that was reached. */
    ghost predicate FailedFrom(s: State)
      reads this
    {
      exists stage :: stage != Done && In(s.(failed := true, stage := stage))
    }

    /** Binds the tensors and runs the network, outside the lock. */
    method Infer(ghost s: State) returns (ok: bool)
      requires In(s) && s == START.(stage := Converted, mapped := true)
      modifies this
      ensures ok ==> In(s.(stage := Inferred))
      ensures ok ==> Calls(log) == Inferring(old(Calls(log)), profiling)
      ensures !ok ==> FailedFrom(s)
      ensures MadeSync(log) == old(MadeSync(log))
    {
      ok := Bind(s);
      if ok {
        ok := Launch(s.(stage := Bound));
      }
      if ok {
        ok := Try(SyncStream, s.(stage := Enqueued));
        if ok && profiling {
          ok := Try(ElapsedTime, s.(stage := Inferred));
        }
      }
    }

    method UnmapResources(ghost s: State) returns (unmapped: bool)
      requires In(s) && !s.locked && s.context == Callers && s.mapped && !s.stuck
      modifies this
      ensures unmapped ==> In(s.(mapped := false))
      ensures !unmapped ==>
        || In(s.(failed := true, stuck := true, context := Lost))
        || In(s.(mapped := false, failed := true)) || In(s.(failed := true, stuck := true))
      ensures unmapped ==> Calls(log) == Mapping(old(Calls(log)), Unmap, profiling)
      ensures old(MadeSync(log)) ==> MadeSync(log)
      ensures MadeSync(log) ==> old(MadeSync(log)) || profiling
    {
      unmapped := OpenContextBlock(s);
      if !unmapped {
        return;
      }
      ghost var inside := s.(locked := true, context := Runtimes);
      unmapped := Try(Unmap, inside);
      if !unmapped {
        CloseContextBlock(inside.(failed := true, stuck := true));
        return;
      }
      if profiling {
        unmapped := Try(RecordEvent, inside.(mapped := false));
        if unmapped {
          unmapped := Try(SyncEvent, inside.(mapped := false));
        }
        if !unmapped {
          CloseContextBlock(inside.(mapped := false, failed := true));
          return;
        }
      }
      CloseContextBlock(inside.(mapped := false));
    }

    method ConvertOutputs(ghost s: State) returns (ok: bool)
      requires In(s) && s == START.(stage := Inferred)
      modifies this
      ensures ok ==> In(s.(stage := Done))
      ensures !ok ==> In(s.(failed := true, context := Lost)) || In(s.(stage := Emitting, failed := true))
      ensures ok ==> Calls(log) == Outputs(old(Calls(log)))
      ensures MadeSync(log) == old(MadeSync(log))
    {
      ok := OpenContextBlock(s);
      if !ok {
        return;
      }
      Do(ConvertOutput, s.(locked := true, context := Runtimes));
      CloseContextBlock(s.(locked := true, context := Runtimes, stage := Emitting));
      ok := Try(WaitOutput, s.(stage := Emitting));
    }

    /** Main result: on every path all rules are kept and the lock is given back; the
        caller's context state is given back exactly if no swap failed; success means that
        no call failed, and then the calls were exactly those of the script; the resources stay mapped exactly if an
        unmap or its context block failed; and all waits are outside the lock exactly if
        no profiling event was waited for, on success exactly without profiling. */
    method RunInference() returns (ok: bool)
      requires log == []
      modifies this
      ensures Monitor(log).Some? && !Monitor(log).value.locked
      ensures Monitor(log).value.context == if Event(Swap, false) in log then Lost else Callers
      ensures ok <==> !Monitor(log).value.failed
      ensures ok <==> Monitor(log).value.stage == Done
      ensures Monitor(log).value.mapped == Monitor(log).value.stuck
      ensures WaitsOutside(log) <==> !MadeSync(log)
      ensures !profiling ==> WaitsOutside(log)
      ensures ok ==> (WaitsOutside(log) <==> !profiling)
      ensures ok <==> !AnyFailed(log)
      ensures ok ==> Calls(log) == Script(profiling)
    {
      ok := InferAndConvert();
      OutcomeOfLog(log);
      ContextOfLog(log);
      WaitsOutsideIffNoSync(log);
    }

    /** Given up, with whatever could not be unmapped still mapped. */
    ghost predicate GivenUp()
      reads this
    {
      && Monitor(log).Some?
      && var s := Monitor(log).value;
         !s.locked && s.failed && s.stage != Done && s.mapped == s.stuck
    }

    method InferAndConvert() returns (ok: bool)
      requires log == []
      modifies this
      ensures ok ==> In(START.(stage := Done)) && Calls(log) == Script(profiling)
      ensures !ok ==> GivenUp()
      ensures MadeSync(log) ==> profiling
      ensures ok && profiling ==> MadeSync(log)
    {
      ok := ConvertInputs();
      if !ok {
        return;
      }
      ok := MapResources(START.(stage := Converted));
      if !ok {
        return;
      }
      ok := InferAndUnmap(START.(stage := Converted, mapped := true));
      if !ok {
        return;
      }
      ok := ConvertOutputs(START.(stage := Inferred));
    }

    /** The resources are unmapped whether or not the inference went well. */
    method InferAndUnmap(ghost s: State) returns (ok: bool)
      requires In(s) && s == START.(stage := Converted, mapped := true)
      modifies this
      ensures ok ==> In(START.(stage := Inferred))
      ensures ok ==> Calls(log) == Mapping(Inferring(old(Calls(log)), profiling), Unmap, profiling)
      ensures !ok ==> GivenUp()
      ensures old(MadeSync(log)) ==> MadeSync(log)
      ensures MadeSync(log) ==> old(MadeSync(log)) || profiling
    {
      ok := Infer(s);
      var unmapped := UnmapResources(Monitor(log).value);
      ok := ok && unmapped;
    }
  }

  lemma Extended(log: seq<Event>, e: Event)
    requires Monitor(log).Some? && Allowed(Monitor(log).value, e.call)
    ensures Monitor(log + [e]) == Some(After(Monitor(log).value, e))
    ensures MadeSync(log + [e]) == (MadeSync(log) || e.call == SyncEvent)
    ensures Calls(log + [e]) == Calls(log) + [e.call]
  {
    assert (log + [e])[..|log|] == log;
  }

  // ---------------------------------------------------------------- what the rules mean, read off the log

  /** How often the lock has been entered and not left. */
  function Depth(log: seq<Event>): int {
    if log == [] then 0
    else
      var e := log[|log| - 1];
      Depth(log[..|log| - 1]) + if e.call == Enter then 1 else if e.call == Leave then -1 else 0
  }

  predicate Happened(log: seq<Event>, call: Call) {
    Event(call, true) in log
  }

  lemma {:induction false} PrefixAccepted(log: seq<Event>, i: nat)
    requires i <= |log| && Monitor(log).Some?
    ensures Monitor(log[..i]).Some?
    ensures i < |log| ==> Allowed(Monitor(log[..i]).value, log[i].call)
  {
    var last := |log| - 1;
    if i == |log| {
      assert log[..i] == log;
    } else if i == last {
      assert log[..i] == log[..last];
    } else {
      PrefixAccepted(log[..last], i);
      assert log[..last][..i] == log[..i];
    }
  }

  /** The lock and the outcome, told from the log alone. */
  lemma {:induction false} LockOfLog(log: seq<Event>)
    requires Monitor(log).Some?
    ensures Depth(log) == if Monitor(log).value.locked then 1 else 0
  {
    if log != [] {
      LockOfLog(log[..|log| - 1]);
    }
  }

  predicate AnyFailed(log: seq<Event>) {
    exists e :: e in log && !e.ok
  }

  lemma OutcomeNext(log: seq<Event>, s: State, e: Event)
    requires s.failed <==> AnyFailed(log)
    ensures After(s, e).failed <==> AnyFailed(log + [e])
  {
    assert e in log + [e];
  }

  lemma {:induction false} OutcomeOfLog(log: seq<Event>)
    requires Monitor(log).Some?
    ensures Monitor(log).value.failed <==> AnyFailed(log)
  {
    if log == [] {
      assert !AnyFailed(log);
    } else {
      var before, e := log[..|log| - 1], log[|log| - 1];
      OutcomeOfLog(before);
      assert log == before + [e];
      OutcomeNext(before, Monitor(before).value, e);
    }
  }

  /** What must have happened for a state to be reached. */
  predicate Explains(log: seq<Event>, s: State) {
    && (s.mapped || s.stage in TOUCHING ==> Happened(log, Map))
    && (s.stage in TOUCHING + {Converted} ==> Happened(log, WaitInput))
    && (s.stage in {InputKnown} ==> Successes(log, GetPointer) >= 1)
    && (s.stage in TOUCHING - {InputKnown} ==> Successes(log, GetPointer) >= 2)
    && (s.stage in TOUCHING - {InputKnown, OutputKnown} ==> Happened(log, CompareSizes))
    && (s.stage in {Bound, Enqueued, Inferred, Emitting, Done} ==> Happened(log, BindTensors))
    && (s.stage in {Enqueued, Inferred, Emitting, Done} ==> Happened(log, Enqueue))
    && (s.stage in {Inferred, Emitting, Done} ==> Happened(log, SyncStream) && (s.mapped || Happened(log, Unmap)))
    && (s.stage == Done ==> Happened(log, WaitOutput))
  }

  /** The stages that only mapped resources allow to reach. */
  const TOUCHING := {InputKnown, OutputKnown, Compared, Bound, Enqueued, Inferred, Emitting, Done}

  function Successes(log: seq<Event>, call: Call): nat {
    if log == [] then 0
    else Successes(log[..|log| - 1], call) + if log[|log| - 1] == Event(call, true) then 1 else 0
  }

  lemma ExplainsNext(log: seq<Event>, s: State, e: Event)
    requires Explains(log, s) && Allowed(s, e.call)
    ensures Explains(log + [e], After(s, e))
  {
    assert forall call :: Happened(log + [e], call) <==> Happened(log, call) || e == Event(call, true);
    assert (log + [e])[..|log|] == log;
  }

  lemma {:induction false} HistoryOfLog(log: seq<Event>)
    requires Monitor(log).Some?
    ensures Explains(log, Monitor(log).value)
  {
    if log != [] {
      var before, e := log[..|log| - 1], log[|log| - 1];
      HistoryOfLog(before);
      ExplainsNext(before, Monitor(before).value, e);
      assert log == before + [e];
    }
  }

  /** Whether the resources are mapped after a log. */
  predicate MappedAfter(log: seq<Event>) {
    if log == [] then false
    else
      var e := log[|log| - 1];
      if e.call == Map then e.ok else if e.call == Unmap then !e.ok else MappedAfter(log[..|log| - 1])
  }

  /** Event i is an unmap that failed, or a context block that failed over mapped resources. */
  predicate Sticks(log: seq<Event>, i: nat)
    requires i < |log|
  {
    log[i] == Event(Unmap, false) || (log[i] == Event(Swap, false) && MappedAfter(log[..i]))
  }

  lemma {:induction false} MappedOfLog(log: seq<Event>)
    requires Monitor(log).Some?
    ensures Monitor(log).value.mapped == MappedAfter(log)
  {
    if log != [] {
      MappedOfLog(log[..|log| - 1]);
    }
  }

  predicate Stuck(log: seq<Event>) {
    exists i :: 0 <= i < |log| && Sticks(log, i)
  }

  lemma StuckGrows(log: seq<Event>, e: Event)
    ensures Stuck(log + [e]) <==>
              Stuck(log) || e == Event(Unmap, false) || (e == Event(Swap, false) && MappedAfter(log))
  {
    var longer := log + [e];
    assert longer[..|log|] == log;
    forall i | 0 <= i < |log|
      ensures Sticks(longer, i) <==> Sticks(log, i)
    {
      assert longer[..i] == log[..i];
    }
    if Sticks(longer, |log|) {
      assert Stuck(longer);
    }
    if Stuck(log) {
      var i :| 0 <= i < |log| && Sticks(log, i);
      assert Sticks(longer, i);
    }
  }

  lemma StuckNext(log: seq<Event>, s: State, e: Event)
    requires s.stuck <==> Stuck(log)
    requires s.mapped == MappedAfter(log)
    ensures After(s, e).stuck <==> Stuck(log + [e])
  {
    StuckGrows(log, e);
  }

  lemma {:induction false} StuckOfLog(log: seq<Event>)
    requires Monitor(log).Some?
    ensures Monitor(log).value.stuck <==> Stuck(log)
  {
    if log == [] {
      assert !Stuck(log);
    } else {
      var before, e := log[..|log| - 1], log[|log| - 1];
      StuckOfLog(before);
      MappedOfLog(before);
      assert log == before + [e];
      StuckNext(before, Monitor(before).value, e);
    }
  }

  /** The caller's state is in the context, outside the lock, exactly if no swap failed. */
  lemma {:induction false} ContextOfLog(log: seq<Event>)
    requires Monitor(log).Some?
    ensures var s := Monitor(log).value;
      && (s.context == Unsaved || s.context == Lost <==> Event(Swap, false) in log)
      && (!s.locked ==> s.context == if Event(Swap, false) in log then Lost else Callers)
  {
    if log != [] {
      var before, e := log[..|log| - 1], log[|log| - 1];
      ContextOfLog(before);
      assert log == before + [e];
    }
  }

  /** Every CUDA map and unmap, every conversion and every wait for a profiling event is
      made inside the lock, every wait for a query or the stream and the inference outside
      it; mapping follows a completed input conversion, the inference two pointers, their
      sizes and the binding, output conversion a completed inference and unmap; and once a
      call has failed there is only cleaning up. */
  lemma RulesMean(log: seq<Event>, i: nat)
    requires i < |log| && Monitor(log).Some?
    ensures 0 <= Depth(log[..i]) <= 1
    ensures log[i].call in {Map, Unmap, ConvertInput, ConvertOutput, SyncEvent} ==> Depth(log[..i]) == 1
    ensures log[i].call in {WaitInput, WaitOutput, Enqueue, SyncStream} ==> Depth(log[..i]) == 0
    ensures log[i].call == Map ==> Happened(log[..i], WaitInput)
    ensures log[i].call in {GetPointer, CompareSizes, BindTensors, Enqueue, SyncStream, Unmap} ==>
              Happened(log[..i], Map)
    ensures log[i].call in {CompareSizes, BindTensors, Enqueue} ==> Successes(log[..i], GetPointer) >= 2
    ensures log[i].call in {BindTensors, Enqueue} ==> Happened(log[..i], CompareSizes)
    ensures log[i].call == Enqueue ==> Happened(log[..i], BindTensors)
    ensures log[i].call in {SyncStream, ConvertOutput} ==> Happened(log[..i], Enqueue)
    ensures log[i].call == ConvertOutput ==> Happened(log[..i], SyncStream) && Happened(log[..i], Unmap)
    ensures AnyFailed(log[..i]) ==> log[i].call in {Enter, Swap, Restore, Leave, Unmap, RecordEvent, SyncEvent}
  {
    PrefixAccepted(log, i);
    LockOfLog(log[..i]);
    HistoryOfLog(log[..i]);
    OutcomeOfLog(log[..i]);
  }

  /** Whether call i waits for a query, the stream or an event. */
  predicate IsWait(call: Call) {
    call in {WaitInput, WaitOutput, SyncStream, SyncEvent}
  }

  predicate WaitsOutside(log: seq<Event>) {
    forall i | 0 <= i < |log| && IsWait(log[i].call) :: Depth(log[..i]) == 0
  }

  lemma {:induction false} SyncOfLog(log: seq<Event>)
    ensures MadeSync(log) <==> exists i :: 0 <= i < |log| && log[i].call == SyncEvent
  {
    if log != [] {
      SyncOfLog(log[..|log| - 1]);
    }
  }

  /** No wait holds the lock exactly if no profiling event is waited for. */
  lemma WaitsOutsideIffNoSync(log: seq<Event>)
    requires Monitor(log).Some?
    ensures WaitsOutside(log) <==> !MadeSync(log)
  {
    SyncOfLog(log);
    forall i | 0 <= i < |log| && IsWait(log[i].call)
      ensures Depth(log[..i]) == if log[i].call == SyncEvent then 1 else 0
    {
      RulesMean(log, i);
    }
  }

  // ---------------------------------------------------------------- two logs

  const CONVERTING := [Event(Enter, true), Event(Swap, true), Event(ConvertInput, true), Event(Restore, true),
                       Event(Leave, true), Event(WaitInput, true)]

  const MAPPING := [Event(Enter, true), Event(Swap, true), Event(Map, true), Event(RecordEvent, true),
                    Event(SyncEvent, true)]

  /** The states after each further call, as long as all succeed. */
  function AfterAll(s: State, calls: seq<Event>): Option<State>
    decreases |calls|
  {
    if calls == [] then Some(s)
    else if Allowed(s, calls[0].call) then AfterAll(After(s, calls[0]), calls[1..])
    else None
  }

  lemma {:induction false} MonitorContinues(log: seq<Event>, calls: seq<Event>, s: State)
    requires Monitor(log) == Some(s) && AfterAll(s, calls).Some?
    ensures Monitor(log + calls) == AfterAll(s, calls)
    decreases |calls|
  {
    if calls == [] {
      assert log + calls == log;
    } else {
      Extended(log, calls[0]);
      MonitorContinues(log + [calls[0]], calls[1..], After(s, calls[0]));
      assert log + calls == (log + [calls[0]]) + calls[1..];
    }
  }

  lemma MappedAndSynced()
    ensures AfterAll(START, CONVERTING) == Some(START.(stage := Converted))
    ensures AfterAll(START.(stage := Converted), MAPPING)
         == Some(START.(stage := Converted, locked := true, context := Runtimes, mapped := true))
  {
    FirstCalls();
    SecondCalls();
  }

  /** One more call that succeeds. */
  lemma OneCall(s: State, calls: seq<Event>, i: nat)
    requires i < |calls| && Allowed(s, calls[i].call)
    ensures AfterAll(s, calls[i..]) == AfterAll(After(s, calls[i]), calls[i + 1..])
  {
    assert calls[i..][1..] == calls[i + 1..];
  }

  lemma FirstCalls()
    ensures AfterAll(START, CONVERTING) == Some(START.(stage := Converted))
  {
    var inside := START.(locked := true, context := Runtimes);
    assert CONVERTING[0..] == CONVERTING && CONVERTING[6..] == [];
    OneCall(START, CONVERTING, 0);
    OneCall(START.(locked := true), CONVERTING, 1);
    OneCall(inside, CONVERTING, 2);
    OneCall(inside.(stage := Converting), CONVERTING, 3);
    OneCall(START.(locked := true, stage := Converting), CONVERTING, 4);
    OneCall(START.(stage := Converting), CONVERTING, 5);
  }

  lemma SecondCalls()
    ensures var s := START.(stage := Converted);
      AfterAll(s, MAPPING) == Some(s.(locked := true, context := Runtimes, mapped := true))
  {
    var s := START.(stage := Converted);
    var inside := s.(locked := true, context := Runtimes);
    assert MAPPING[0..] == MAPPING && MAPPING[5..] == [];
    OneCall(s, MAPPING, 0);
    OneCall(s.(locked := true), MAPPING, 1);
    OneCall(inside, MAPPING, 2);
    OneCall(inside.(mapped := true), MAPPING, 3);
    OneCall(inside.(mapped := true), MAPPING, 4);
  }

  /** With profiling, the wait for the event behind the map holds the lock. */
  lemma ProfilingWaitsInside()
    ensures var log := CONVERTING + MAPPING;
      && Monitor(log).Some? && log[|log| - 1] == Event(SyncEvent, true)
      && Depth(log[..|log| - 1]) == 1 && !WaitsOutside(log)
  {
    var log := CONVERTING + MAPPING;
    assert Monitor([]) == Some(START) && [] + CONVERTING == CONVERTING;
    MappedAndSynced();
    MonitorContinues([], CONVERTING, START);
    MonitorContinues(CONVERTING, MAPPING, START.(stage := Converted));
    RulesMean(log, |log| - 1);
  }

  /** A swap that yields no caller state gives the lock back, but not the state. */
  lemma FailedSwapLosesContext()
    ensures var log := [Event(Enter, true), Event(Swap, false), Event(Restore, true), Event(Leave, true)];
      Monitor(log) == Some(START.(context := Lost, failed := true))
  {
    var log := [Event(Enter, true), Event(Swap, false), Event(Restore, true), Event(Leave, true)];
    assert log[..3][..2] == log[..2] && log[..2][..1] == log[..1] && log[..1][..0] == [];
    assert Monitor(log[..1]) == Some(START.(locked := true));
    assert Monitor(log[..2]) == Some(START.(locked := true, context := Unsaved, failed := true));
    assert Monitor(log[..3]) == Some(START.(locked := true, context := Lost, failed := true));
  }
}
