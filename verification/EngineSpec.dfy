/**
 * The engine's critical sections. Each function is what ONE hold of the engine mutex does to
 * the engine's fields; Engine.dfy implements them in place and Machine.dfy interleaves them.
 * A hold that would dereference a nil current run answers Crash.
 */
module EngineSpec {
  import opened Wrappers
  import opened Runs

  datatype StepSpec = StepSpec(phase: Phase, requires_: seq<string>, leavesRunning: bool)

  type Pipeline = seq<StepSpec>

  /** What the process was wired with before it started serving. */
  datatype Wiring = Wiring(steps: Pipeline, clusterUID: string, toolchain: map<string, string>)

  /** The deployment-action cursor the observer reads. */
  datatype Cursor = Cursor(action: string, index: int, total: int, generation: nat)

  /**
   * The fields the engine mutex guards. A channel is named by the epoch that made it: resume is
   * the current resume channel, full the channels holding an undelivered wake-up, handle the
   * epoch whose cancel/done pair is installed.
   */
  datatype Eng = Eng(current: Option<Run>, epoch: nat, resume: nat, full: set<nat>, handle: Option<nat>,
                     draining: bool, recoveredPending: bool, cursor: Cursor)

  const NEW_ENGINE := Eng(None, 0, 0, {}, None, false, false, Cursor("", 0, 0, 0))

  datatype Hold<+T> = Went(eng: Eng, value: T) | Refused(code: Code) | Superseded | Crash

  predicate Alive(e: Eng, epoch: nat) { e.epoch == epoch }

  predicate Holds(e: Eng, runId: string) { e.current.Some? && e.current.value.id == runId }

  function WithRun(e: Eng, r: Run): Eng { e.(current := Some(r)) }

  /** A new epoch: fresh cancel/done handles, and for Start and Retry a fresh resume channel. */
  function Bump(e: Eng): Eng { e.(epoch := e.epoch + 1, handle := Some(e.epoch + 1)) }

  function FreshResume(e: Eng): Eng { e.(resume := e.epoch) }

  function NewRun(w: Wiring, id: string, now: nat): Run {
    Run(id, Running, if w.steps == [] then NoPhase else w.steps[0].phase,
        map[], map[], [], [], NO_WORKLOAD, 0, "", false, w.clusterUID, w.toolchain, now, now, [],
        NO_OWNERSHIP, NO_RESIDUE, NO_VALIDATION, NO_AGENT_NAMESPACE)
  }

  /** Why Start would be refused, in the order the source checks. */
  function StartRefusal(e: Eng): Option<Code> {
    if e.draining then Some(Code.Draining)
    else if e.recoveredPending then Some(Conflict)
    else if e.current.None? then None
    else
      var r := e.current.value;
      if IsLive(r.state) then Some(Conflict)
      else if r.state == Active then Some(Conflict)
      else if HasUnconfirmedCleanup(r) then Some(Conflict)
      else if HasIncompleteTeardown(r) then Some(Conflict)
      else None
  }

  /** Start's first hold; the value is the run the rollback would restore. */
  function StartHold(e: Eng, w: Wiring, id: string, now: nat): Hold<Option<Run>> {
    var no := StartRefusal(e);
    if no.Some? then Refused(no.value)
    else Went(FreshResume(Bump(WithRun(e, NewRun(w, id, now)))), e.current)
  }

  /** Start's rollback after a failed Save. */
  function StartUndo(e: Eng, epoch: nat, id: string, previous: Option<Run>): Eng {
    if Holds(e, id) && Alive(e, epoch) then e.(current := previous) else e
  }

  function RetryRefusal(e: Eng, runId: string): Option<Code> {
    if e.draining then Some(Code.Draining)
    else if !Holds(e, runId) then Some(NotFound)
    else if e.current.value.state != Failed then Some(Conflict)
    else if HasIncompleteTeardown(e.current.value) then Some(Conflict)
    else None
  }

  /** Retry's first hold; the value is the error text and gate its rollback would restore. */
  function RetryHold(e: Eng, runId: string, now: nat): Hold<(string, bool)> {
    var no := RetryRefusal(e, runId);
    if no.Some? then Refused(no.value)
    else
      var r := e.current.value;
      var e1 := WithRun(e, r.(state := Running, err := "", updatedAt := now)).(recoveredPending := false);
      Went(FreshResume(Bump(e1)), (r.err, e.recoveredPending))
  }

  function RetryUndo(e: Eng, epoch: nat, runId: string, prev: (string, bool), now: nat): Eng {
    if Holds(e, runId) && Alive(e, epoch) then
      WithRun(e, e.current.value.(state := Failed, err := prev.0, updatedAt := now)).(recoveredPending := prev.1)
    else e
  }

  function ResetRefusal(e: Eng, w: Wiring, runId: string, proverReady: bool, hasTeardown: bool): Option<Code> {
    if e.draining then Some(Code.Draining)
    else if !Holds(e, runId) then Some(NotFound)
    else
      var r := e.current.value;
      if w.clusterUID != "" && r.clusterUID != "" && r.clusterUID != w.clusterUID then Some(ClusterMismatch)
      else if IsLive(r.state) then Some(Conflict)
      else if r.components == [] then Some(Conflict)
      else if !proverReady then Some(Unavailable)
      else if !hasTeardown then Some(Unavailable)
      else None
  }

  function ResetHold(e: Eng, w: Wiring, runId: string, proverReady: bool, hasTeardown: bool, now: nat): Hold<()> {
    var no := ResetRefusal(e, w, runId, proverReady, hasTeardown);
    if no.Some? then Refused(no.value)
    else
      var r := e.current.value;
      Went(Bump(WithRun(e, r.(state := Resetting, err := "", residue := NO_RESIDUE, updatedAt := now))), ())
  }

  function ResetUndo(e: Eng, epoch: nat, runId: string, now: nat): Eng {
    if Holds(e, runId) && Alive(e, epoch) then
      WithRun(e, e.current.value.(state := Failed, updatedAt := now))
    else e
  }

  /** Decide accepts exactly the keys the gate asked for. */
  function DecideRefusal(e: Eng, runId: string, decisions: map<string, string>): Option<Code> {
    if !Holds(e, runId) then Some(NotFound)
    else if e.current.value.state != AwaitingDecision then Some(Conflict)
    else if exists k :: k in decisions && k !in e.current.value.pending then Some(InvalidRequest)
    else if exists k :: k in e.current.value.pending && k !in decisions then Some(InvalidRequest)
    else None
  }

  /** Decide's first hold; the value is the run as it was, for the rollback. */
  function DecideHold(e: Eng, runId: string, decisions: map<string, string>, now: nat): Hold<Run> {
    var no := DecideRefusal(e, runId, decisions);
    if no.Some? then Refused(no.value)
    else
      var r := e.current.value;
      Went(WithRun(e, r.(decisions := r.decisions + decisions, pending := [], state := Running, updatedAt := now)), r)
  }

  function DecideUndo(e: Eng, epoch: nat, runId: string, prev: Run): Eng {
    if Holds(e, runId) && Alive(e, epoch) && IsLive(e.current.value.state) then
      WithRun(e, e.current.value.(decisions := prev.decisions, pending := prev.pending,
                                  state := prev.state, updatedAt := prev.updatedAt))
    else e
  }

  /** The non-blocking send on the one-slot resume channel. */
  function DecideSignal(e: Eng, epoch: nat, runId: string): Eng {
    if Holds(e, runId) && Alive(e, epoch) then e.(full := e.full + {e.resume}) else e
  }

  function DiscardRefusal(e: Eng, runId: string): Option<Code> {
    if e.draining then Some(Code.Draining)
    else if !Holds(e, runId) then Some(NotFound)
    else
      var r := e.current.value;
      if IsLive(r.state) then Some(Conflict)
      else if r.state == Active then Some(Conflict)
      else if HasUnconfirmedCleanup(r) then Some(Conflict)
      else if HasIncompleteTeardown(r) then Some(Conflict)
      else None
  }

  function DiscardHold(e: Eng, runId: string): Hold<(Run, bool)> {
    var no := DiscardRefusal(e, runId);
    if no.Some? then Refused(no.value)
    else Went(e.(current := None, recoveredPending := false), (e.current.value, e.recoveredPending))
  }

  function DiscardUndo(e: Eng, epoch: nat, prev: (Run, bool)): Eng {
    if e.current.None? && Alive(e, epoch) then e.(current := Some(prev.0), recoveredPending := prev.1) else e
  }

  function StopRefusal(e: Eng, runId: string, proverReady: bool): Option<Code> {
    if e.draining then Some(Code.Draining)
    else if !Holds(e, runId) then Some(NotFound)
    else if !Stoppable(e.current.value) then Some(Conflict)
    else if !proverReady then Some(Unavailable)
    else None
  }

  /** Stop's second hold, once the workload is confirmed absent. */
  function StopRecord(e: Eng, epoch: nat, runId: string): Eng {
    if Holds(e, runId) && Alive(e, epoch) then
      WithRun(e, e.current.value.(workload := WorkloadOf(runId), cleanupUnconfirmed := false))
    else e
  }

  /** execute's loop head: the index of the next step. */
  function TopHold(e: Eng, epoch: nat): Hold<int> {
    if !Alive(e, epoch) then Superseded
    else if e.current.None? then Crash
    else Went(e, e.current.value.stepIndex)
  }

  /** Keys of required, in order, that decisions does not hold. */
  function Missing(required: seq<string>, decisions: map<string, string>): seq<string> {
    if required == [] then []
    else (if required[0] in decisions then [] else [required[0]]) + Missing(required[1..], decisions)
  }

  datatype Gate = Open | Parked(channel: nat, snapshot: Run)

  /** awaitDecisions' hold: open the gate or park the run at it. */
  function AwaitHold(e: Eng, epoch: nat, step: StepSpec, now: nat): Hold<Gate> {
    if !Alive(e, epoch) then Superseded
    else if e.current.None? then Crash
    else
      var r := e.current.value;
      var missing := Missing(step.requires_, r.decisions);
      if missing == [] then Went(e, Open)
      else
        var r1 := r.(pending := missing, state := AwaitingDecision, phase := step.phase, updatedAt := now);
        Went(WithRun(e, r1), Parked(e.resume, r1))
  }

  /** Receiving from the resume channel. */
  function TakeToken(e: Eng, channel: nat): Eng { e.(full := e.full - {channel}) }

  /** runStep's first hold; the value is the scratch copy the step gets. */
  function BeginHold(e: Eng, epoch: nat, step: StepSpec, now: nat): Hold<Run> {
    if !Alive(e, epoch) then Superseded
    else if e.current.None? then Crash
    else
      var r := e.current.value.(phase := step.phase, state := Running, updatedAt := now);
      Went(WithRun(e, r), r)
  }

  /** What a failing step's error says about its own cleanup. */
  datatype Failure = Plain | Unconfirmed | Confirmed

  /** runStep's failure merge. It never gives up: a superseded goroutine just merges nothing. */
  function FailMerge(e: Eng, epoch: nat, scratch: Run, why: Failure): Hold<()> {
    if !Alive(e, epoch) then Went(e, ())
    else if e.current.None? then Crash
    else
      var r := e.current.value;
      Went(WithRun(e, r.(components := scratch.components, ownership := scratch.ownership,
                         agentNamespace := scratch.agentNamespace,
                         cleanupUnconfirmed := match why
                                               case Plain => r.cleanupUnconfirmed
                                               case Unconfirmed => true
                                               case Confirmed => false)), ())
  }

  /** mergeStepSuccess; the value is the clone runStep persists. */
  function OkMerge(e: Eng, epoch: nat, scratch: Run, i: int, now: nat): Hold<Run> {
    if !Alive(e, epoch) then Superseded
    else if e.current.None? then Crash
    else
      var r := e.current.value;
      var r1 := r.(artifacts := r.artifacts + scratch.artifacts, decisions := r.decisions + scratch.decisions,
                   components := scratch.components, workload := scratch.workload,
                   ownership := scratch.ownership, agentNamespace := scratch.agentNamespace,
                   validation := scratch.validation, stepIndex := i + 1, updatedAt := now);
      Went(WithRun(e, r1), r1)
  }

  /** finish's hold; it nil-checks, so it is Superseded rather than Crash on a discarded run. */
  function FinishHold(e: Eng, epoch: nat, state: State, err: string, now: nat): Hold<Run> {
    if !Alive(e, epoch) || e.current.None? then Superseded
    else
      var r := e.current.value.(state := state, err := err, updatedAt := now);
      Went(WithRun(e, r), r)
  }

  function SetAction(e: Eng, epoch: nat, name: string, index: int, total: int): Eng {
    if Alive(e, epoch) then e.(cursor := Cursor(name, index, total, e.cursor.generation + 1)) else e
  }

  function ClearAction(e: Eng, epoch: nat): Eng { SetAction(e, epoch, "", 0, 0) }

  /** snapshotRun: a copy of the current run if this epoch still owns it. */
  function SnapshotRun(e: Eng, epoch: nat, runId: string): Option<Run> {
    if Alive(e, epoch) && Holds(e, runId) then e.current else None
  }

  function RecordResidue(e: Eng, epoch: nat, runId: string, residue: Residue, now: nat): Eng {
    if Alive(e, epoch) && Holds(e, runId) then
      WithRun(e, e.current.value.(residue := residue, updatedAt := now))
    else e
  }

  /** Reset's last hold, after a clean teardown. */
  function ResetRelease(e: Eng, epoch: nat): Eng {
    if Alive(e, epoch) then e.(recoveredPending := false) else e
  }

  /** The state execute finishes in when no step is left. */
  function TerminalState(steps: Pipeline): State {
    if |steps| > 0 && steps[|steps| - 1].leavesRunning then Active else Done
  }

  /** Attribution as one consistent read. */
  datatype Attribution = Attribution(runId: string, phase: Phase, cursor: Cursor, terminal: bool)

  function ReadAttribution(e: Eng): Attribution {
    if e.current.None? then Attribution("", NoPhase, e.cursor, false)
    else Attribution(e.current.value.id, e.current.value.phase, e.cursor, IsTerminal(e.current.value.state))
  }

  /** Missing is exactly the required keys without a decision. */
  lemma {:induction false} MissingExact(required: seq<string>, decisions: map<string, string>)
    ensures forall k :: k in Missing(required, decisions) <==> k in required && k !in decisions
  {
    if required != [] {
      MissingExact(required[1..], decisions);
      assert required == [required[0]] + required[1..];
    }
  }

  lemma {:induction false} NoneMissing(required: seq<string>, decisions: map<string, string>)
    requires forall k :: k in required ==> k in decisions
    ensures Missing(required, decisions) == []
  {
    if required != [] {
      NoneMissing(required[1..], decisions);
    }
  }
}
