/**
 * The continuous-request loop of `ApiClient`: `start_continuous_requests`,
 * its worker `run_requests` and `stop_continuous_requests`, as a state
 * machine over the two flags and the worker thread's position.
 *
 * The worker's position is explicit (`Phase`). One `Step` event is one
 * atomic step of the worker; `Start` and `Stop` are the GUI thread's calls.
 * Any interleaving of the two threads is a sequence of these events, so a
 * lemma about every event sequence holds for every interleaving at this
 * granularity. Each step hands the worker what it observes from outside:
 * the triple (or exception) `make_api_request` produced, and the value of
 * `request_delay_seconds` it reads.
 */
module RunLoop {
  import opened Wrappers
  import opened Settings
  import PyText
  import opened Exchange

  /** Where the worker thread is. */
  datatype Phase =
    | Idle                                 // there is no worker thread
    | AtTop(calls: nat)                    // about to test `while not self.should_stop`
    | AfterCall(calls: nat)                // the callback has run; about to test `if self.should_stop: break`
    | Waiting(calls: nat, ticksLeft: nat)  // in the sleeping loop, `ticksLeft` iterations of it still to go

  /** `is_running`, `should_stop` and the worker. */
  datatype RunState = RunState(isRunning: bool, shouldStop: bool, phase: Phase)

  /** A freshly constructed client: neither flag set, no worker. */
  const Initial := RunState(false, false, Idle)

  /** A worker exists only while `is_running` holds. */
  predicate Inv(s: RunState) {
    s.phase != Idle ==> s.isRunning
  }

  /** What a step shows the outside world. */
  datatype Obs =
    | Quiet
    | Called(number: nat, result: CallResult)  // the callback receives the triple of call #number
    | Slept                                     // one `time.sleep(0.1)`
    | Exited                                    // the loop ended and cleared `is_running`
    | Crashed                                   // an exception ended the worker thread

  datatype Event = Start | Stop | Step(reply: Return, delay: Value)

  datatype Transition = Transition(next: RunState, obs: Obs)

  /** The number of calls the worker has made (0 when there is none). */
  function CallsSoFar(p: Phase): nat {
    match p
    case Idle => 0
    case AtTop(n) => n
    case AfterCall(n) => n
    case Waiting(n, _) => n
  }

  // ---------------------------------------------------------------- the delay

  /** Python's `s * n` for a string. */
  function Repeat(s: string, n: nat): (r: string)
    ensures |r| == n * |s|
    ensures n > 0 && s != [] ==> r[|r| - 1] == s[|s| - 1]
  {
    if n == 0 then [] else Repeat(s, n - 1) + s
  }

  /** Python's `int(x)` for a float: truncation toward zero. */
  function Truncate(x: real): (n: int)
    ensures x >= 0.0 ==> n as real <= x < n as real + 1.0
    ensures x < 0.0 ==> n as real - 1.0 < x <= n as real
  {
    if x >= 0.0 then x.Floor else -((-x).Floor)
  }

  /** `len(range(n))`. */
  function RangeLength(n: int): nat {
    if n > 0 then n else 0
  }

  /**
   * How many 0.1-second sleeps `range(int(delay * 10))` allows for a
   * `request_delay_seconds` of `delay`; `None` where `int(...)` raises. A
   * string delay is repeated ten times by `*` before `int` reads it.
   */
  function TickCount(delay: Value): (t: Option<nat>)
    ensures Number(delay).Some? ==> t.Some?
    ensures Number(delay).Some? && Number(delay).value <= 0.0 ==> t == Some(0)
    ensures Number(delay).Some? && Number(delay).value > 0.0 ==>
      t.value as real <= 10.0 * Number(delay).value < t.value as real + 1.0
    ensures delay.Str? ==> (t.Some? <==> PyText.IsIntLiteral(Repeat(delay.s, 10)))
  {
    match delay
    case Int(d) => Some(RangeLength(10 * d))
    case Real(r) => Some(RangeLength(Truncate(10.0 * r)))
    case Str(s) =>
      match PyText.ParseInt(Repeat(s, 10))
      case Some(n) => Some(RangeLength(n))
      case None => None
  }

  /** A string delay that does not end in a digit (the empty one included) makes `int` raise. */
  lemma NonDigitDelayRaises(s: string)
    requires s == [] || !PyText.IsDigit(s[|s| - 1])
    ensures TickCount(Str(s)) == None
  {
    var r := Repeat(s, 10);
    if s != [] {
      assert !PyText.IsDigit(r[|r| - 1]);
      assert r[1..][|r| - 2] == r[|r| - 1];
    }
  }

  lemma {:induction false} RepeatDigits(s: string, n: nat)
    requires PyText.IsDigits(s) && n > 0
    ensures PyText.IsDigits(Repeat(s, n))
  {
    if n > 1 {
      RepeatDigits(s, n - 1);
      var r := Repeat(s, n - 1);
      assert forall i :: 0 <= i < |r + s| ==> (r + s)[i] == if i < |r| then r[i] else s[i - |r|];
    } else {
      assert Repeat(s, 1) == [] + s;
      assert [] + s == s;
    }
  }

  /** A string of digits is read as the number its ten-fold repetition spells: the worker survives it. */
  lemma DigitDelayIsRead(s: string)
    requires PyText.IsDigits(s)
    ensures TickCount(Str(s)).Some?
  {
    RepeatDigits(s, 10);
  }

  // ---------------------------------------------------------------- the transitions

  /** `start_continuous_requests`: a no-op while `is_running`, else a new worker before call #1. */
  function OnStart(s: RunState): (s': RunState)
    ensures s.isRunning ==> s' == s
    ensures !s.isRunning ==> s'.isRunning && !s'.shouldStop && s'.phase == AtTop(0)
  {
    if s.isRunning then s else RunState(true, false, AtTop(0))
  }

  /**
   * One step of `run_requests`. `reply` is what `make_api_request` does
   * when the step makes the call; `delay` is the value of
   * `request_delay_seconds` read when the step reads it.
   */
  function OnStep(s: RunState, reply: Return, delay: Value): (t: Transition)
    ensures Inv(s) ==> Inv(t.next)
    ensures t.next.shouldStop == s.shouldStop
    ensures s.phase == Idle ==> t == Transition(s, Quiet)
    ensures Inv(s) ==> (t.obs == Exited <==> s.isRunning && !t.next.isRunning)
    ensures t.obs == Exited ==> s.shouldStop
    ensures t.obs.Called? ==>
      && s.phase.AtTop? && !s.shouldStop && reply == Returned(t.obs.result)
      && t.obs.number == s.phase.calls + 1 && t.next.phase == AfterCall(t.obs.number)
    ensures s.phase.AtTop? && !s.shouldStop && reply.Returned? ==> t.obs.Called?
    ensures t.obs == Crashed <==>
      !s.shouldStop && ((s.phase.AtTop? && reply.Raised?) || (s.phase.AfterCall? && TickCount(delay).None?))
    ensures t.obs == Crashed ==> t.next == s.(phase := Idle)
    ensures s.phase.AfterCall? && !s.shouldStop && TickCount(delay).Some? ==>
      t == Transition(s.(phase := Waiting(s.phase.calls, TickCount(delay).value)), Quiet)
    ensures t.obs == Slept ==> s.phase.Waiting? && s.phase.ticksLeft > 0 && t.next.phase == s.phase.(ticksLeft := s.phase.ticksLeft - 1)
    ensures t.next.phase != Idle ==> CallsSoFar(t.next.phase) == CallsSoFar(s.phase) + (if t.obs.Called? then 1 else 0)
  {
    match s.phase
    case Idle => Transition(s, Quiet)
    case AtTop(n) =>
      if s.shouldStop then Transition(RunState(false, s.shouldStop, Idle), Exited)
      else (
        match reply
        case Raised => Transition(s.(phase := Idle), Crashed)
        case Returned(r) => Transition(s.(phase := AfterCall(n + 1)), Called(n + 1, r)))
    case AfterCall(n) =>
      if s.shouldStop then Transition(RunState(false, s.shouldStop, Idle), Exited)
      else (
        match TickCount(delay)
        case None => Transition(s.(phase := Idle), Crashed)
        case Some(ticks) => Transition(s.(phase := Waiting(n, ticks)), Quiet))
    case Waiting(n, k) =>
      if k == 0 || s.shouldStop then Transition(s.(phase := AtTop(n)), Quiet)
      else Transition(s.(phase := Waiting(n, k - 1)), Slept)
  }

  function Next(s: RunState, e: Event): (t: Transition)
    ensures e == Stop ==> t == Transition(s.(shouldStop := true), Quiet)
  {
    match e
    case Start => Transition(OnStart(s), Quiet)
    case Stop => Transition(s.(shouldStop := true), Quiet)
    case Step(reply, delay) => OnStep(s, reply, delay)
  }

  /** Asking to stop twice is the same as asking once. */
  lemma StopIsIdempotent(s: RunState)
    ensures Next(Next(s, Stop).next, Stop) == Next(s, Stop)
  {
  }

  datatype Trace = Trace(final: RunState, obs: seq<Obs>)

  /** The state after a sequence of events, and what each event showed. */
  function Run(s: RunState, evs: seq<Event>): (t: Trace)
    ensures |t.obs| == |evs|
    decreases |evs|
  {
    if evs == [] then Trace(s, [])
    else
      var first := Next(s, evs[0]);
      var rest := Run(first.next, evs[1..]);
      Trace(rest.final, [first.obs] + rest.obs)
  }

  predicate NoStart(evs: seq<Event>) {
    forall i :: 0 <= i < |evs| ==> !evs[i].Start?
  }

  function StepCount(evs: seq<Event>): nat
    decreases |evs|
  {
    if evs == [] then 0 else (if evs[0].Step? then 1 else 0) + StepCount(evs[1..])
  }

  /** The call numbers the callback sees, in order. */
  function CallNumbers(obs: seq<Obs>): seq<nat>
    decreases |obs|
  {
    if obs == [] then [] else (if obs[0].Called? then [obs[0].number] else []) + CallNumbers(obs[1..])
  }

  /** The sleeps before the first call. */
  function SleepsBeforeCall(obs: seq<Obs>): nat
    decreases |obs|
  {
    if obs == [] || obs[0].Called? then 0 else (if obs[0] == Slept then 1 else 0) + SleepsBeforeCall(obs[1..])
  }

  // ---------------------------------------------------------------- properties of every run

  lemma RunUnfold(s: RunState, evs: seq<Event>)
    requires evs != []
    ensures Run(s, evs).final == Run(Next(s, evs[0]).next, evs[1..]).final
    ensures Run(s, evs).obs[0] == Next(s, evs[0]).obs
    ensures Run(s, evs).obs[1..] == Run(Next(s, evs[0]).next, evs[1..]).obs
  {
  }

  /** Every run keeps `is_running` set while a worker exists. */
  lemma {:induction false} RunKeepsInv(s: RunState, evs: seq<Event>)
    requires Inv(s)
    ensures Inv(Run(s, evs).final)
    decreases |evs|
  {
    if evs != [] {
      RunUnfold(s, evs);
      RunKeepsInv(Next(s, evs[0]).next, evs[1..]);
    }
  }

  /** Without a worker and without a start, nothing is ever called. */
  lemma {:induction false} NoCallsWithoutWorker(s: RunState, evs: seq<Event>)
    requires s.phase == Idle && NoStart(evs)
    ensures CallNumbers(Run(s, evs).obs) == []
    ensures Run(s, evs).final.phase == Idle && Run(s, evs).final.isRunning == s.isRunning
    decreases |evs|
  {
    if evs != [] {
      RunUnfold(s, evs);
      NoCallsWithoutWorker(Next(s, evs[0]).next, evs[1..]);
    }
  }

  /**
   * `call_count` counts up by one per call: between two starts the callback
   * sees the calls numbered consecutively from where the worker stands.
   */
  lemma {:induction false} CallsNumberedConsecutively(s: RunState, evs: seq<Event>)
    requires NoStart(evs)
    ensures var nums := CallNumbers(Run(s, evs).obs);
      forall i :: 0 <= i < |nums| ==> nums[i] == CallsSoFar(s.phase) + 1 + i
    decreases |evs|
  {
    if evs != [] {
      var first := Next(s, evs[0]);
      var obs := Run(s, evs).obs;
      var rest := Run(first.next, evs[1..]).obs;
      RunUnfold(s, evs);
      assert obs == [obs[0]] + obs[1..];
      assert CallNumbers(obs) == (if first.obs.Called? then [first.obs.number] else []) + CallNumbers(rest);
      if first.next.phase == Idle {
        NoCallsWithoutWorker(first.next, evs[1..]);
      } else {
        CallsNumberedConsecutively(first.next, evs[1..]);
      }
    }
  }

  /** After a start that launches a worker, the callback sees calls #1, #2, #3, ... */
  lemma FreshStartNumbersFromOne(s: RunState, evs: seq<Event>)
    requires !s.isRunning && NoStart(evs)
    ensures var nums := CallNumbers(Run(s, [Start] + evs).obs);
      forall i :: 0 <= i < |nums| ==> nums[i] == i + 1
  {
    var all := [Start] + evs;
    RunUnfold(s, all);
    assert all[1..] == evs;
    var obs := Run(s, all).obs;
    assert obs == [obs[0]] + obs[1..];
    assert CallNumbers(obs) == CallNumbers(Run(OnStart(s), evs).obs);
    CallsNumberedConsecutively(OnStart(s), evs);
  }

  /** The worker steps a stopped worker still takes before it is gone. */
  function StepsToExit(p: Phase): nat {
    match p
    case Idle => 0
    case AtTop(_) => 1
    case AfterCall(_) => 1
    case Waiting(_, _) => 2
  }

  /**
   * A stop request is honoured: once `should_stop` is set and no start
   * intervenes, no call is made, no sleep and no crash happens, and within
   * two worker steps the worker is gone and `is_running` is clear.
   * `should_stop` itself stays set.
   */
  lemma {:induction false} StopIsHonoured(s: RunState, evs: seq<Event>)
    requires s.shouldStop && NoStart(evs)
    ensures forall i :: 0 <= i < |evs| ==> Run(s, evs).obs[i] in {Quiet, Exited}
    ensures Run(s, evs).final.shouldStop
    ensures (s.phase != Idle || !s.isRunning) && StepCount(evs) >= StepsToExit(s.phase) ==>
      Run(s, evs).final == RunState(false, true, Idle)
    ensures (s.phase != Idle || !s.isRunning) && StepCount(evs) >= 2 ==> Run(s, evs).final == RunState(false, true, Idle)
    decreases |evs|
  {
    if evs != [] {
      var first := Next(s, evs[0]);
      RunUnfold(s, evs);
      StopIsHonoured(first.next, evs[1..]);
      var obs := Run(s, evs).obs;
      forall i | 0 <= i < |evs| ensures obs[i] in {Quiet, Exited} {
        if i > 0 {
          assert obs[i] == Run(first.next, evs[1..]).obs[i - 1];
        }
      }
      if first.next.phase == Idle && !first.next.isRunning {
        StoppedStaysStopped(first.next, evs[1..]);
      }
    } else if s.phase == Idle && !s.isRunning {
      assert Run(s, evs).final == s;
    }
  }

  lemma {:induction false} StoppedStaysStopped(s: RunState, evs: seq<Event>)
    requires s == RunState(false, true, Idle) && NoStart(evs)
    ensures Run(s, evs).final == s
    decreases |evs|
  {
    if evs != [] {
      RunUnfold(s, evs);
      StoppedStaysStopped(Next(s, evs[0]).next, evs[1..]);
    }
  }

  /**
   * A worker that died of an exception leaves `is_running` set, so every
   * later start is a no-op and the client never calls again, whatever
   * happens next.
   */
  lemma {:induction false} CrashLeavesClientStuck(s: RunState, evs: seq<Event>)
    requires s.isRunning && s.phase == Idle
    ensures Run(s, evs).final.isRunning && Run(s, evs).final.phase == Idle
    ensures forall i :: 0 <= i < |evs| ==> Run(s, evs).obs[i] == Quiet
    decreases |evs|
  {
    if evs != [] {
      var first := Next(s, evs[0]);
      RunUnfold(s, evs);
      CrashLeavesClientStuck(first.next, evs[1..]);
      var obs := Run(s, evs).obs;
      forall i | 0 <= i < |evs| ensures obs[i] == Quiet {
        if i > 0 {
          assert obs[i] == Run(first.next, evs[1..]).obs[i - 1];
        }
      }
    }
  }

  /** The sleeps still allowed before the next call. */
  function SleepBudget(p: Phase): nat {
    if p.Waiting? then p.ticksLeft else 0
  }

  /**
   * The pause between calls is bounded by the delay read after the
   * previous one: from the sleeping loop, no more sleeps happen before the
   * next call than `range(int(delay * 10))` had iterations left.
   */
  lemma {:induction false} SleepsBoundedByDelay(s: RunState, evs: seq<Event>)
    requires NoStart(evs) && !s.phase.AfterCall?
    ensures SleepsBeforeCall(Run(s, evs).obs) <= SleepBudget(s.phase)
    decreases |evs|
  {
    if evs != [] {
      var first := Next(s, evs[0]);
      var obs := Run(s, evs).obs;
      RunUnfold(s, evs);
      assert obs == [obs[0]] + obs[1..];
      if !first.obs.Called? {
        SleepsBoundedByDelay(first.next, evs[1..]);
      }
    }
  }
}
