/** The tool-call progress record and its transitions: start, interval tick,
    partial update, completion and the delayed reset
    (src/hooks/use-tool-progress.ts). Clock readings are explicit `now`
    arguments in milliseconds; percentages are exact rationals. */
module ToolProgress {
  import opened Wrappers
  import opened Json

  datatype Status = Running | Completed | Failed

  /** `"running" | "completed" | "error"` */
  function StatusName(s: Status): string {
    match s
    case Running => "running"
    case Completed => "completed"
    case Failed => "error"
  }

  /** A JavaScript percentage: a number, or `NaN` when it was computed from an
      undefined estimate. */
  datatype Percent = Pct(value: real) | NaN

  /** `ToolProgressState`. `tool`, `startTime` and `endTime` are `None` for
      `null`; `args` and `intermediateResults` are JavaScript values
      (`Undefined` when absent); `message` is `None` when absent or undefined. */
  datatype ProgressState = ProgressState(
    isActive: bool,
    tool: Option<string>,
    args: Value,
    startTime: Option<int>,
    endTime: Option<int>,
    status: Status,
    progressPercentage: Percent,
    intermediateResults: Value,
    message: Option<string>)

  /** The state before any tool runs, and after a reset. */
  const Initial := ProgressState(false, None, Null, None, None, Running, Pct(0.0), Undefined, None)

  /** `estimatedToolCompletionTimes[tool]`: `None` for a name outside the table. */
  function Estimate(tool: string): (ms: Option<nat>)
    ensures ms.Some? ==> ms.value >= 1000
    ensures ms.Some? <==> tool in {"web", "x", "url", "fileSearch", "notes", "whiteboard", "none"}
  {
    if tool == "web" then Some(5000)
    else if tool == "x" then Some(3000)
    else if tool == "url" then Some(2000)
    else if tool == "fileSearch" then Some(2000)
    else if tool == "notes" then Some(1500)
    else if tool == "whiteboard" then Some(6000)
    else if tool == "none" then Some(1000)
    else None
  }

  /** The corrected estimate: the table entry, or the `none` entry for a name
      outside the table (see Findings in the README). */
  function EstimateFor(tool: string): (ms: nat)
    ensures ms >= 1000
    ensures Estimate(tool).Some? ==> ms == Estimate(tool).value
  {
    Estimate(tool).GetOr(1000)
  }

  /** The interval period: 20 updates over the estimated time. */
  function UpdateInterval(estimate: nat): (period: real)
    ensures period * 20.0 == estimate as real
  {
    estimate as real / 20.0
  }

  /** `estimatedTime / 20` as written: `None` (NaN) for an undefined estimate. */
  function PeriodAsWritten(estimate: Option<nat>): (period: Option<real>)
    ensures period.Some? <==> estimate.Some?
    ensures estimate.Some? ==> period.value * 20.0 == estimate.value as real
  {
    if estimate.Some? then Some(UpdateInterval(estimate.value)) else None
  }

  /** `Date.now() - (prev.startTime || Date.now())`: a missing or zero start
      time counts as "just started". */
  function Elapsed(startTime: Option<int>, now: int): int {
    if startTime.Some? && startTime.value != 0 then now - startTime.value else 0
  }

  /** `Math.min(95, (elapsed / estimate) * 100)` */
  function TickPercent(elapsed: int, estimate: nat): (p: real)
    requires estimate > 0
    ensures p <= 95.0
    ensures elapsed >= 0 ==> p >= 0.0
    ensures p == 95.0 <==> elapsed * 100 >= 95 * estimate
  {
    var raw := (elapsed as real) / (estimate as real) * 100.0;
    RatioAtLeast(elapsed as real * 100.0, estimate as real, 95.0);
    assert raw == (elapsed as real * 100.0) / (estimate as real);
    if raw <= 95.0 then raw else 95.0
  }

  lemma RatioAtLeast(a: real, b: real, c: real)
    requires b > 0.0
    ensures a / b >= c <==> a >= c * b
  {
    assert a / b * b == a;
    if a / b >= c {
      assert a / b * b >= c * b;
    } else {
      assert a / b * b < c * b;
    }
  }

  /** More elapsed time never lowers the percentage. */
  lemma TickPercentMonotone(e1: int, e2: int, estimate: nat)
    requires estimate > 0 && e1 <= e2
    ensures TickPercent(e1, estimate) <= TickPercent(e2, estimate)
  {
    var est := estimate as real;
    assert (e1 as real) / est <= (e2 as real) / est by {
      assert (e1 as real) <= (e2 as real);
    }
  }

  /** With the start time fixed, later ticks show at least as much progress. */
  lemma {:induction false} LaterTickNotLower(start: int, now1: int, now2: int, estimate: nat)
    requires estimate > 0 && now1 <= now2
    ensures TickPercent(Elapsed(Some(start), now1), estimate) <= TickPercent(Elapsed(Some(start), now2), estimate)
  {
    TickPercentMonotone(Elapsed(Some(start), now1), Elapsed(Some(start), now2), estimate);
  }

  function Started(tool: string, args: Value, now: int): (s: ProgressState)
    ensures s.isActive && s.tool == Some(tool) && s.args == args
    ensures s.startTime == Some(now) && s.endTime == None
    ensures s.status == Running && s.progressPercentage == Pct(0.0)
    ensures s.intermediateResults == Undefined && s.message == None
  {
    ProgressState(true, Some(tool), args, Some(now), None, Running, Pct(0.0), Undefined, None)
  }

  /** `Math.min(95, (elapsed / estimatedTime) * 100)` over the looked-up
      estimate: `NaN` when the tool has no table entry. */
  function TickPercentAsWritten(elapsed: int, estimate: Option<nat>): (p: Percent)
    requires estimate.Some? ==> estimate.value > 0
    ensures estimate.Some? ==> p == Pct(TickPercent(elapsed, estimate.value))
    ensures estimate.None? <==> p.NaN?
  {
    match estimate
    case Some(ms) => Pct(TickPercent(elapsed, ms))
    case None => NaN
  }

  /** One interval callback, with the estimate the interval captured:
      inactive states are left alone, active ones get a new percentage and
      nothing else changes. */
  function Ticked(s: ProgressState, now: int, estimate: Option<nat>): (r: ProgressState)
    requires estimate.Some? ==> estimate.value > 0
    ensures !s.isActive ==> r == s
    ensures s.isActive ==> r == s.(progressPercentage := TickPercentAsWritten(Elapsed(s.startTime, now), estimate))
  {
    if !s.isActive then s
    else s.(progressPercentage := TickPercentAsWritten(Elapsed(s.startTime, now), estimate))
  }

  /** `Partial<ToolProgressState>`: `Some` for each supplied key. */
  datatype ProgressPatch = ProgressPatch(
    isActive: Option<bool>,
    tool: Option<Option<string>>,
    args: Option<Value>,
    startTime: Option<Option<int>>,
    endTime: Option<Option<int>>,
    status: Option<Status>,
    progressPercentage: Option<Percent>,
    intermediateResults: Option<Value>,
    message: Option<Option<string>>)

  const NoChange := ProgressPatch(None, None, None, None, None, None, None, None, None)

  /** `{...prev, ...data}` */
  function Patched(s: ProgressState, p: ProgressPatch): (r: ProgressState)
    ensures r.isActive == p.isActive.GetOr(s.isActive)
    ensures r.tool == p.tool.GetOr(s.tool) && r.args == p.args.GetOr(s.args)
    ensures r.startTime == p.startTime.GetOr(s.startTime) && r.endTime == p.endTime.GetOr(s.endTime)
    ensures r.status == p.status.GetOr(s.status)
    ensures r.progressPercentage == p.progressPercentage.GetOr(s.progressPercentage)
    ensures r.intermediateResults == p.intermediateResults.GetOr(s.intermediateResults)
    ensures r.message == p.message.GetOr(s.message)
  {
    ProgressState(
      p.isActive.GetOr(s.isActive), p.tool.GetOr(s.tool), p.args.GetOr(s.args),
      p.startTime.GetOr(s.startTime), p.endTime.GetOr(s.endTime), p.status.GetOr(s.status),
      p.progressPercentage.GetOr(s.progressPercentage),
      p.intermediateResults.GetOr(s.intermediateResults), p.message.GetOr(s.message))
  }

  /** The keys of the right patch win. */
  function Then<T>(a: Option<T>, b: Option<T>): Option<T> {
    if b.Some? then b else a
  }

  function Combined(p: ProgressPatch, q: ProgressPatch): ProgressPatch {
    ProgressPatch(Then(p.isActive, q.isActive), Then(p.tool, q.tool), Then(p.args, q.args),
      Then(p.startTime, q.startTime), Then(p.endTime, q.endTime), Then(p.status, q.status),
      Then(p.progressPercentage, q.progressPercentage),
      Then(p.intermediateResults, q.intermediateResults), Then(p.message, q.message))
  }

  /** An empty update keeps the state; an update applied twice is applied once;
      two updates in a row are one combined update. */
  lemma PatchLaws(s: ProgressState, p: ProgressPatch, q: ProgressPatch)
    ensures Patched(s, NoChange) == s
    ensures Patched(Patched(s, p), p) == Patched(s, p)
    ensures Patched(Patched(s, p), q) == Patched(s, Combined(p, q))
  {
  }

  /** `completeToolProgress(status, message)` */
  function Finished(s: ProgressState, status: Status, message: Option<string>, now: int): (r: ProgressState)
    ensures !r.isActive && r.endTime == Some(now) && r.progressPercentage == Pct(100.0)
    ensures r.status == status && r.message == message
    ensures r.tool == s.tool && r.args == s.args && r.startTime == s.startTime
    ensures r.intermediateResults == s.intermediateResults
  {
    s.(isActive := false, endTime := Some(now), status := status, progressPercentage := Pct(100.0), message := message)
  }

  /** The delayed reset: back to the initial state only when the completion it
      was scheduled for is more than 5000 ms old. */
  function AfterResetTimer(s: ProgressState, now: int): (r: ProgressState)
    ensures s.endTime.Some? && s.endTime.value != 0 && now - s.endTime.value > 5000 ==> r == Initial
    ensures !(s.endTime.Some? && s.endTime.value != 0 && now - s.endTime.value > 5000) ==> r == s
  {
    if s.endTime.Some? && s.endTime.value != 0 && now - s.endTime.value > 5000 then Initial else s
  }

  /** A restart (end time cleared) or a reading exactly 5000 ms after the
      completion both leave the state as it is. */
  lemma ResetSkipped(s: ProgressState, now: int)
    requires s.endTime.None? || (s.endTime.value != 0 && now == s.endTime.value + 5000)
    ensures AfterResetTimer(s, now) == s
  {
  }

  /** The shape every transition except a free-form update keeps, as long as
      the tool has an estimate: an active record is running, has no end time
      and a number of at most 95%; an inactive one is at 0% or 100%. */
  predicate WellFormed(s: ProgressState) {
    (s.isActive ==> s.status == Running && s.endTime.None? && s.progressPercentage.Pct? && s.progressPercentage.value <= 95.0)
    && (!s.isActive ==> s.progressPercentage == Pct(0.0) || s.progressPercentage == Pct(100.0))
  }

  lemma TransitionsKeepWellFormed(s: ProgressState, tool: string, args: Value, status: Status,
                                  message: Option<string>, now: int, estimate: nat)
    requires WellFormed(s) && estimate > 0
    ensures WellFormed(Initial)
    ensures WellFormed(Started(tool, args, now))
    ensures WellFormed(Ticked(s, now, Some(estimate)))
    ensures WellFormed(Finished(s, status, message, now))
    ensures WellFormed(AfterResetTimer(s, now))
  {
  }

  /** The hook's state cell. */
  class ToolProgressTracker {
    var state: ProgressState

    constructor ()
      ensures state == Initial
    {
      state := Initial;
    }

    /** `startToolProgress(tool, args)`; returns the estimate its interval
        captures and the interval period, both `None` (undefined and NaN) for
        a tool outside the table. */
    method Start(tool: string, args: Value, now: int) returns (estimate: Option<nat>, period: Option<real>)
      modifies this
      ensures state == Started(tool, args, now)
      ensures estimate == Estimate(tool) && period == PeriodAsWritten(estimate)
      ensures estimate.None? <==> tool !in {"web", "x", "url", "fileSearch", "notes", "whiteboard", "none"}
    {
      state := ProgressState(true, Some(tool), args, Some(now), None, Running, Pct(0.0), Undefined, None);
      estimate := Estimate(tool);
      period := if estimate.Some? then Some(estimate.value as real / 20.0) else None;
    }

    /** One firing of the interval started with `estimate`; `stop` says the
        interval clears itself. */
    method Tick(now: int, estimate: Option<nat>) returns (stop: bool)
      requires estimate.Some? ==> estimate.value > 0
      modifies this
      ensures stop == !old(state).isActive
      ensures state == Ticked(old(state), now, estimate)
    {
      if !state.isActive {
        return true;
      }
      var elapsed := Elapsed(state.startTime, now);
      var p := if estimate.Some? then Pct(TickPercent(elapsed, estimate.value)) else NaN;
      state := state.(progressPercentage := p);
      stop := false;
    }

    /** `updateToolProgress(data)` */
    method Update(patch: ProgressPatch)
      modifies this
      ensures state == Patched(old(state), patch)
    {
      state := Patched(state, patch);
    }

    /** `completeToolProgress(status, message)` (status defaults to completed). */
    method Complete(status: Status, message: Option<string>, now: int)
      modifies this
      ensures state == Finished(old(state), status, message, now)
      ensures WellFormed(old(state)) ==> WellFormed(state)
    {
      state := state.(isActive := false, endTime := Some(now), status := status,
                      progressPercentage := Pct(100.0), message := message);
    }

    /** The reset timeout firing at `now`. */
    method ResetTimer(now: int)
      modifies this
      ensures state == AfterResetTimer(old(state), now)
    {
      if state.endTime.Some? && state.endTime.value != 0 && now - state.endTime.value > 5000 {
        state := Initial;
      }
    }
  }

  // ---------------------------------------------------------------------------
  // As written, a name outside the table has an undefined estimate: the
  // interval period and every tick's percentage are NaN.

  /** A tool call without a name is tracked as `unknown`, which has no
      estimate: its first tick leaves a NaN percentage and the record stops
      being well formed, while the corrected estimate keeps it in range. */
  lemma UnknownToolProgress(args: Value, start: int, now: int)
    requires start != 0 && start <= now
    ensures Estimate("unknown").None? && PeriodAsWritten(Estimate("unknown")).None?
    ensures Ticked(Started("unknown", args, start), now, Estimate("unknown")).progressPercentage == NaN
    ensures !WellFormed(Ticked(Started("unknown", args, start), now, Estimate("unknown")))
    ensures var p := Ticked(Started("unknown", args, start), now, Some(EstimateFor("unknown"))).progressPercentage;
      p.Pct? && 0.0 <= p.value <= 95.0
  {
  }

  /** With the corrected estimate every tick keeps the record well formed. */
  lemma CorrectedTickWellFormed(s: ProgressState, tool: string, now: int)
    requires WellFormed(s)
    ensures WellFormed(Ticked(s, now, Some(EstimateFor(tool))))
  {
    TransitionsKeepWellFormed(s, tool, Null, Running, None, now, EstimateFor(tool));
  }
}
