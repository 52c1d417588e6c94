/**
 * Every record a run of the machine hands to a Save is one the next process will take: valid, of this
 * cluster, and with its guards intact. So a crash at any point loses no guard that was saved.
 */
module Records {
  import opened Wrappers
  import opened Runs
  import opened EngineSpec
  import opened Machine
  import opened Structure
  import opened Recovery
  import opened Envelopes
  import Safety

  /** Run IDs come from the generator, and clocks are past Go's zero time. */
  predicate Timed(ev: Event) {
    match ev
    case CallStart(_, id, now) => ValidRunId(id) && now != 0
    case CallRetry(_, _, now) => now != 0
    case CallReset(_, _, _, _, now) => now != 0
    case CallDecide(_, _, _, now) => now != 0
    case Advance(_, a) => a.now != 0
    case _ => true
  }

  predicate AllTimed(evs: seq<Event>) { forall i :: 0 <= i < |evs| ==> Timed(evs[i]) }

  /** Every step names its phase. */
  predicate Phased(w: Wiring) {
    w.steps != [] && forall i :: 0 <= i < |w.steps| ==> w.steps[i].phase != NoPhase && w.steps[i].phase != UnknownPhase
  }

  // ---- every run anywhere is one Recover takes ----

  /** A run this process started, as Start stamps it. */
  predicate Stamped(w: Wiring, r: Run) { r.clusterUID == w.clusterUID && r.toolchain == w.toolchain }

  /** One Recover takes; and unless it was there before, stamped with this process's cluster and toolchain. */
  predicate Sound(w: Wiring, had: set<string>, r: Run) { Recoverable(w, r) && (r.id in had || Stamped(w, r)) }

  predicate PcFine(w: Wiring, had: set<string>, pc: Pc) {
    match pc
    case AwaitSave(_, _, snapshot) => Sound(w, had, snapshot)
    case BeginSave(_, scratch) => Sound(w, had, scratch)
    case OkClear(_, merged) => Sound(w, had, merged)
    case OkSave(merged) => Sound(w, had, merged)
    case Finish(state) => state != UnknownState
    case TailClear(snapshot) => Sound(w, had, snapshot)
    case TailSave(snapshot) => Sound(w, had, snapshot)
    case _ => true
  }

  predicate LaunchFine(w: Wiring, had: set<string>, how: Launch) {
    how.ByStart? && how.previous.Some? ==> Sound(w, had, how.previous.value)
  }

  predicate ThreadFine(w: Wiring, had: set<string>, t: Thread) {
    match t
    case Launching(_, how, snapshot) => Sound(w, had, snapshot) && LaunchFine(w, had, how)
    case Undoing(_, how, _) => LaunchFine(w, had, how)
    case Executing(_, pc) => PcFine(w, had, pc)
    case Tearing(_, _, rpc) =>
      (rpc.ResetTailClear? ==> Sound(w, had, rpc.snapshot)) && (rpc.ResetTailSave? ==> Sound(w, had, rpc.snapshot))
    case Deciding(_, _, prev, dpc) => Sound(w, had, prev) && (dpc.DecideSaving? ==> Sound(w, had, dpc.snapshot))
    case Discarding(_, gone, _) => Sound(w, had, gone.0)
    case Stopping(_, _, spc) =>
      (spc.StopTailClear? ==> Sound(w, had, spc.snapshot)) && (spc.StopTailSave? ==> Sound(w, had, spc.snapshot))
    case _ => true
  }

  predicate AllFine(w: Wiring, had: set<string>, s: Sys) {
    && (s.eng.current.Some? ==> Sound(w, had, s.eng.current.value))
    && (forall tid :: tid in s.threads ==> ThreadFine(w, had, s.threads[tid]))
  }

  /** A thread moves, and what it leaves is fine. */
  lemma StaysFine(w: Wiring, had: set<string>, s: Sys, s': Sys, tid: nat)
    requires AllFine(w, had, s) && ThreadsMove(s.threads, s'.threads, tid)
    requires s'.eng.current.Some? ==> Sound(w, had, s'.eng.current.value)
    requires tid in s'.threads ==> ThreadFine(w, had, s'.threads[tid])
    ensures AllFine(w, had, s')
  {
    forall u | u in s'.threads && u != tid ensures u in s.threads && s'.threads[u] == s.threads[u] {
      Untouched(s, s', tid, u);
    }
  }

  lemma FineFacts(w: Wiring, had: set<string>, s: Sys, tid: nat)
    requires AllFine(w, had, s) && tid in s.threads
    ensures ThreadFine(w, had, s.threads[tid]) && (s.eng.current.Some? ==> Sound(w, had, s.eng.current.value))
  {
  }

  lemma LaunchingFine(w: Wiring, had: set<string>, s: Sys, tid: nat, a: Answer)
    requires AllFine(w, had, s) && a.now != 0 && tid in s.threads && s.threads[tid].Launching?
    ensures AllFine(w, had, Window(w, s, tid, s.threads[tid], a))
  {
    hide ValidRunId, AllFine;
    FineFacts(w, had, s, tid);
    StaysFine(w, had, s, Window(w, s, tid, s.threads[tid], a), tid);
  }

  lemma UndoStartFine(w: Wiring, had: set<string>, s: Sys, tid: nat, a: Answer)
    requires AllFine(w, had, s) && a.now != 0 && tid in s.threads
    requires s.threads[tid].Undoing? && s.threads[tid].how.ByStart?
    ensures AllFine(w, had, Window(w, s, tid, s.threads[tid], a))
  {
    hide ValidRunId, AllFine, Sound;
    FineFacts(w, had, s, tid);
    StaysFine(w, had, s, Window(w, s, tid, s.threads[tid], a), tid);
  }

  lemma UndoRetryFine(w: Wiring, had: set<string>, s: Sys, tid: nat, a: Answer)
    requires AllFine(w, had, s) && a.now != 0 && tid in s.threads
    requires s.threads[tid].Undoing? && s.threads[tid].how.ByRetry?
    ensures AllFine(w, had, Window(w, s, tid, s.threads[tid], a))
  {
    hide ValidRunId, AllFine;
    FineFacts(w, had, s, tid);
    StaysFine(w, had, s, Window(w, s, tid, s.threads[tid], a), tid);
  }

  lemma UndoResetFine(w: Wiring, had: set<string>, s: Sys, tid: nat, a: Answer)
    requires AllFine(w, had, s) && a.now != 0 && tid in s.threads
    requires s.threads[tid].Undoing? && s.threads[tid].how.ByReset?
    ensures AllFine(w, had, Window(w, s, tid, s.threads[tid], a))
  {
    hide ValidRunId, AllFine;
    FineFacts(w, had, s, tid);
    StaysFine(w, had, s, Window(w, s, tid, s.threads[tid], a), tid);
  }

  lemma ClosingFine(w: Wiring, had: set<string>, s: Sys, tid: nat, a: Answer)
    requires AllFine(w, had, s) && tid in s.threads && s.threads[tid].Closing?
    ensures AllFine(w, had, Window(w, s, tid, s.threads[tid], a))
  {
    hide Sound;
  }

  lemma TopFine(w: Wiring, had: set<string>, s: Sys, tid: nat, epoch: nat, pc: Pc, a: Answer)
    requires Phased(w) && AllFine(w, had, s) && a.now != 0 && tid in s.threads && s.threads[tid] == Executing(epoch, pc)
    requires pc.Top?
    ensures AllFine(w, had, Execute(w, s, tid, epoch, pc, a))
  {
    hide ValidRunId, AllFine, Sound;
    FineFacts(w, had, s, tid);
    StaysFine(w, had, s, Execute(w, s, tid, epoch, pc, a), tid);
  }

  lemma GateFine(w: Wiring, had: set<string>, s: Sys, tid: nat, epoch: nat, pc: Pc, a: Answer)
    requires Phased(w) && AllFine(w, had, s) && a.now != 0 && tid in s.threads && s.threads[tid] == Executing(epoch, pc)
    requires pc.AwaitSave? || pc.Park?
    ensures AllFine(w, had, Execute(w, s, tid, epoch, pc, a))
  {
    hide ValidRunId, AllFine, Sound;
    FineFacts(w, had, s, tid);
    StaysFine(w, had, s, Execute(w, s, tid, epoch, pc, a), tid);
  }

  lemma AwaitFine(w: Wiring, had: set<string>, s: Sys, tid: nat, epoch: nat, pc: Pc, a: Answer)
    requires Phased(w) && AllFine(w, had, s) && a.now != 0 && tid in s.threads && s.threads[tid] == Executing(epoch, pc)
    requires pc.Await?
    ensures AllFine(w, had, Execute(w, s, tid, epoch, pc, a))
  {
    hide ValidRunId, AllFine, Missing;
    FineFacts(w, had, s, tid);
    StaysFine(w, had, s, Execute(w, s, tid, epoch, pc, a), tid);
  }

  lemma BeginFine(w: Wiring, had: set<string>, s: Sys, tid: nat, epoch: nat, pc: Pc, a: Answer)
    requires Phased(w) && AllFine(w, had, s) && a.now != 0 && tid in s.threads && s.threads[tid] == Executing(epoch, pc)
    requires pc.Begin?
    ensures AllFine(w, had, Execute(w, s, tid, epoch, pc, a))
  {
    hide ValidRunId, AllFine;
    FineFacts(w, had, s, tid);
    StaysFine(w, had, s, Execute(w, s, tid, epoch, pc, a), tid);
  }

  lemma BeginSaveFine(w: Wiring, had: set<string>, s: Sys, tid: nat, epoch: nat, pc: Pc, a: Answer)
    requires Phased(w) && AllFine(w, had, s) && a.now != 0 && tid in s.threads && s.threads[tid] == Executing(epoch, pc)
    requires pc.BeginSave?
    ensures AllFine(w, had, Execute(w, s, tid, epoch, pc, a))
  {
    hide ValidRunId, AllFine, Sound;
    FineFacts(w, had, s, tid);
    StaysFine(w, had, s, Execute(w, s, tid, epoch, pc, a), tid);
  }

  lemma SteppingFine(w: Wiring, had: set<string>, s: Sys, tid: nat, epoch: nat, pc: Pc, a: Answer)
    requires AllFine(w, had, s) && tid in s.threads && s.threads[tid] == Executing(epoch, pc) && pc.Stepping?
    ensures AllFine(w, had, Execute(w, s, tid, epoch, pc, a))
  {
    hide Sound, RunStep;
    var s' := Execute(w, s, tid, epoch, pc, a);
    RunStepShape(w, s, tid, epoch, pc.i, pc.scratch, pc.call, a);
    if s' != s {
      StaysFine(w, had, s, s', tid);
    }
  }

  lemma FailFine(w: Wiring, had: set<string>, s: Sys, tid: nat, epoch: nat, pc: Pc, a: Answer)
    requires Phased(w) && AllFine(w, had, s) && a.now != 0 && tid in s.threads && s.threads[tid] == Executing(epoch, pc)
    requires pc.MergeFail? || pc.FailClear?
    ensures AllFine(w, had, Execute(w, s, tid, epoch, pc, a))
  {
    hide ValidRunId, AllFine;
    FineFacts(w, had, s, tid);
    StaysFine(w, had, s, Execute(w, s, tid, epoch, pc, a), tid);
  }

  lemma MergeFine(w: Wiring, had: set<string>, s: Sys, tid: nat, epoch: nat, pc: Pc, a: Answer)
    requires Phased(w) && AllFine(w, had, s) && a.now != 0 && tid in s.threads && s.threads[tid] == Executing(epoch, pc)
    requires pc.MergeOk? && (Alive(s.eng, epoch) ==> 0 <= pc.i < |w.steps|)
    ensures AllFine(w, had, Execute(w, s, tid, epoch, pc, a))
  {
    hide ValidRunId, AllFine, Completed;
    FineFacts(w, had, s, tid);
    StaysFine(w, had, s, Execute(w, s, tid, epoch, pc, a), tid);
  }

  lemma OkFine(w: Wiring, had: set<string>, s: Sys, tid: nat, epoch: nat, pc: Pc, a: Answer)
    requires Phased(w) && AllFine(w, had, s) && a.now != 0 && tid in s.threads && s.threads[tid] == Executing(epoch, pc)
    requires pc.OkClear? || pc.OkSave?
    ensures AllFine(w, had, Execute(w, s, tid, epoch, pc, a))
  {
    hide ValidRunId, AllFine;
    FineFacts(w, had, s, tid);
    StaysFine(w, had, s, Execute(w, s, tid, epoch, pc, a), tid);
  }

  lemma FinishFine(w: Wiring, had: set<string>, s: Sys, tid: nat, epoch: nat, pc: Pc, a: Answer)
    requires Phased(w) && AllFine(w, had, s) && a.now != 0 && tid in s.threads && s.threads[tid] == Executing(epoch, pc)
    requires pc.Finish?
    ensures AllFine(w, had, Execute(w, s, tid, epoch, pc, a))
  {
    hide ValidRunId, AllFine;
    FineFacts(w, had, s, tid);
    StaysFine(w, had, s, Execute(w, s, tid, epoch, pc, a), tid);
  }

  lemma TailFine(w: Wiring, had: set<string>, s: Sys, tid: nat, epoch: nat, pc: Pc, a: Answer)
    requires Phased(w) && AllFine(w, had, s) && a.now != 0 && tid in s.threads && s.threads[tid] == Executing(epoch, pc)
    requires pc.TailClear? || pc.TailSave?
    ensures AllFine(w, had, Execute(w, s, tid, epoch, pc, a))
  {
    hide ValidRunId, AllFine;
    FineFacts(w, had, s, tid);
    StaysFine(w, had, s, Execute(w, s, tid, epoch, pc, a), tid);
  }

  lemma LookFine(w: Wiring, had: set<string>, s: Sys, tid: nat, epoch: nat, runId: string, rpc: ResetPc, a: Answer)
    requires AllFine(w, had, s) && a.now != 0 && tid in s.threads && s.threads[tid] == Tearing(epoch, runId, rpc)
    requires rpc.Look? || rpc.Ensure? || rpc.Uninstall? || rpc.Review?
    ensures AllFine(w, had, Teardown(s, tid, epoch, runId, rpc, a))
  {
    hide ValidRunId, AllFine, AnyFailed;
    FineFacts(w, had, s, tid);
    StaysFine(w, had, s, Teardown(s, tid, epoch, runId, rpc, a), tid);
  }

  lemma RecordFine(w: Wiring, had: set<string>, s: Sys, tid: nat, epoch: nat, runId: string, rpc: ResetPc, a: Answer)
    requires AllFine(w, had, s) && a.now != 0 && tid in s.threads && s.threads[tid] == Tearing(epoch, runId, rpc)
    requires rpc.Record? || rpc.ResetFinish?
    ensures AllFine(w, had, Teardown(s, tid, epoch, runId, rpc, a))
  {
    hide ValidRunId, AllFine, AnyFailed;
    FineFacts(w, had, s, tid);
    StaysFine(w, had, s, Teardown(s, tid, epoch, runId, rpc, a), tid);
  }

  lemma TornFine(w: Wiring, had: set<string>, s: Sys, tid: nat, epoch: nat, runId: string, rpc: ResetPc, a: Answer)
    requires AllFine(w, had, s) && a.now != 0 && tid in s.threads && s.threads[tid] == Tearing(epoch, runId, rpc)
    requires rpc.ResetTailClear? || rpc.ResetTailSave? || rpc.DeleteRecord? || rpc.Release?
    ensures AllFine(w, had, Teardown(s, tid, epoch, runId, rpc, a))
  {
    hide ValidRunId, AllFine, AnyFailed;
    FineFacts(w, had, s, tid);
    StaysFine(w, had, s, Teardown(s, tid, epoch, runId, rpc, a), tid);
  }

  lemma StopFine(w: Wiring, had: set<string>, s: Sys, tid: nat, a: Answer)
    requires AllFine(w, had, s) && a.now != 0 && tid in s.threads && s.threads[tid].Stopping?
    requires var spc := s.threads[tid].spc; spc.StopRecording? || spc.StopFinish?
    ensures var t := s.threads[tid]; AllFine(w, had, Stop(s, tid, t.epoch, t.runId, t.spc, a))
  {
    hide ValidRunId, AllFine;
    FineFacts(w, had, s, tid);
    var t := s.threads[tid];
    StaysFine(w, had, s, Stop(s, tid, t.epoch, t.runId, t.spc, a), tid);
  }

  lemma StopTailFine(w: Wiring, had: set<string>, s: Sys, tid: nat, a: Answer)
    requires AllFine(w, had, s) && a.now != 0 && tid in s.threads && s.threads[tid].Stopping?
    requires var spc := s.threads[tid].spc; !spc.StopRecording? && !spc.StopFinish?
    ensures var t := s.threads[tid]; AllFine(w, had, Stop(s, tid, t.epoch, t.runId, t.spc, a))
  {
    hide ValidRunId, AllFine, Sound;
    FineFacts(w, had, s, tid);
    var t := s.threads[tid];
    StaysFine(w, had, s, Stop(s, tid, t.epoch, t.runId, t.spc, a), tid);
  }

  lemma DecisionFine(w: Wiring, had: set<string>, s: Sys, tid: nat, a: Answer)
    requires Inv(w, s) && AllFine(w, had, s) && tid in s.threads && s.threads[tid].Deciding?
    ensures var t := s.threads[tid]; AllFine(w, had, Decision(s, tid, t.epoch, t.runId, t.prev, t.dpc, a))
  {
    hide ValidRunId, AllFine, DriverOk, Driven;
    FineFacts(w, had, s, tid);
    var t := s.threads[tid];
    assert CallOk(ViewOf(w, s), tid, t);
    StaysFine(w, had, s, Decision(s, tid, t.epoch, t.runId, t.prev, t.dpc, a), tid);
  }

  lemma OtherFine(w: Wiring, had: set<string>, s: Sys, tid: nat, a: Answer)
    requires AllFine(w, had, s) && tid in s.threads && (s.threads[tid].Discarding? || s.threads[tid].Cancelling?)
    ensures AllFine(w, had, Move(w, s, tid, a))
  {
    hide ValidRunId, AllFine;
    FineFacts(w, had, s, tid);
    StaysFine(w, had, s, Move(w, s, tid, a), tid);
  }

  lemma ExecuteFine(w: Wiring, had: set<string>, s: Sys, tid: nat, epoch: nat, pc: Pc, a: Answer)
    requires Phased(w) && Inv(w, s) && AllFine(w, had, s) && a.now != 0 && tid in s.threads
    requires s.threads[tid] == Executing(epoch, pc)
    ensures AllFine(w, had, Execute(w, s, tid, epoch, pc, a))
  {
    hide Inv, AllFine, Execute;
    if pc.Top? { TopFine(w, had, s, tid, epoch, pc, a); }
    else if pc.AwaitSave? || pc.Park? { GateFine(w, had, s, tid, epoch, pc, a); }
    else if pc.Await? { AwaitFine(w, had, s, tid, epoch, pc, a); }
    else if pc.Begin? { BeginFine(w, had, s, tid, epoch, pc, a); }
    else if pc.BeginSave? { BeginSaveFine(w, had, s, tid, epoch, pc, a); }
    else if pc.Stepping? { SteppingFine(w, had, s, tid, epoch, pc, a); }
    else if pc.MergeFail? || pc.FailClear? { FailFine(w, had, s, tid, epoch, pc, a); }
    else if pc.OkClear? || pc.OkSave? { OkFine(w, had, s, tid, epoch, pc, a); }
    else if pc.Finish? { FinishFine(w, had, s, tid, epoch, pc, a); }
    else if pc.MergeOk? {
      DriverKnows(w, s, tid);
      MergeFine(w, had, s, tid, epoch, pc, a);
    } else { TailFine(w, had, s, tid, epoch, pc, a); }
  }

  lemma MoveFine(w: Wiring, had: set<string>, s: Sys, tid: nat, a: Answer)
    requires Phased(w) && Inv(w, s) && AllFine(w, had, s) && a.now != 0 && tid in s.threads
    ensures AllFine(w, had, Move(w, s, tid, a))
  {
    hide Inv, AllFine, Execute, Teardown, Stop, Decision, Window;
    match s.threads[tid]
    case Executing(epoch, pc) => ExecuteFine(w, had, s, tid, epoch, pc, a);
    case Tearing(epoch, runId, rpc) =>
      if rpc.Record? || rpc.ResetFinish? { RecordFine(w, had, s, tid, epoch, runId, rpc, a); }
      else if rpc.Look? || rpc.Ensure? || rpc.Uninstall? || rpc.Review? {
        LookFine(w, had, s, tid, epoch, runId, rpc, a);
      } else { TornFine(w, had, s, tid, epoch, runId, rpc, a); }
    case Stopping(_, _, spc) =>
      if spc.StopRecording? || spc.StopFinish? { StopFine(w, had, s, tid, a); }
      else { StopTailFine(w, had, s, tid, a); }
    case Deciding(_, _, _, _) => DecisionFine(w, had, s, tid, a);
    case Discarding(_, _, _) => OtherFine(w, had, s, tid, a);
    case Cancelling(_) => OtherFine(w, had, s, tid, a);
    case Launching(_, _, _) => LaunchingFine(w, had, s, tid, a);
    case Undoing(_, how, _) =>
      if how.ByStart? { UndoStartFine(w, had, s, tid, a); }
      else if how.ByRetry? { UndoRetryFine(w, had, s, tid, a); }
      else { UndoResetFine(w, had, s, tid, a); }
    case Closing(_) => ClosingFine(w, had, s, tid, a);
  }

  lemma StartFine(w: Wiring, had: set<string>, s: Sys, ev: Event)
    requires Phased(w) && AllFine(w, had, s) && Timed(ev) && (ev.CallStart?)
    ensures AllFine(w, had, Call(w, s, ev))
  {
    hide ValidRunId;
    var s' := Call(w, s, ev);
    forall u | u in s'.threads ensures ThreadFine(w, had, s'.threads[u]) {
    }
  }

  lemma RelaunchFine(w: Wiring, had: set<string>, s: Sys, ev: Event)
    requires Phased(w) && AllFine(w, had, s) && Timed(ev) && (ev.CallRetry? || ev.CallReset?)
    ensures AllFine(w, had, Call(w, s, ev))
  {
    hide ValidRunId;
    var s' := Call(w, s, ev);
    forall u | u in s'.threads ensures ThreadFine(w, had, s'.threads[u]) {
    }
  }

  lemma CallFine(w: Wiring, had: set<string>, s: Sys, ev: Event)
    requires Phased(w) && AllFine(w, had, s) && Timed(ev) &&
             (ev.CallDecide? || ev.CallDiscard? || ev.CallStop? || ev.CallCancel?)
    ensures AllFine(w, had, Call(w, s, ev))
  {
    hide ValidRunId;
    var s' := Call(w, s, ev);
    forall u | u in s'.threads ensures ThreadFine(w, had, s'.threads[u]) {
    }
  }

  lemma NextFine(w: Wiring, had: set<string>, s: Sys, ev: Event)
    requires Phased(w) && Inv(w, s) && AllFine(w, had, s) && Timed(ev)
    ensures AllFine(w, had, Next(w, s, ev))
  {
    hide Inv, Move, Call;
    match ev
    case Advance(tid, a) => if tid in s.threads { MoveFine(w, had, s, tid, a); }
    case Mark(_, _, _, _) =>
    case Vanish(_) =>
    case CallStart(_, _, _) => StartFine(w, had, s, ev);
    case CallRetry(_, _, _) => RelaunchFine(w, had, s, ev);
    case CallReset(_, _, _, _, _) => RelaunchFine(w, had, s, ev);
    case _ => CallFine(w, had, s, ev);
  }

  lemma {:induction false} AlwaysFine(w: Wiring, had: set<string>, s: Sys, evs: seq<Event>)
    requires Phased(w) && Safety.Booted(s) && AllFine(w, had, s) && AllTimed(evs)
    ensures AllFine(w, had, After(w, s, evs))
  {
    if evs == [] {
    } else {
      var before := evs[..|evs| - 1];
      assert forall i :: 0 <= i < |before| ==> before[i] == evs[i];
      AlwaysFine(w, had, s, before);
      Safety.Always(w, s, before);
      NextFine(w, had, After(w, s, before), evs[|evs| - 1]);
    }
  }

  // ---- what is saved ----

  /** The snapshot a thread is about to hand to Save. */
  function Saving(t: Thread): Option<Run> {
    match t
    case Launching(_, _, snapshot) => Some(snapshot)
    case Executing(_, AwaitSave(_, _, snapshot)) => Some(snapshot)
    case Executing(_, BeginSave(_, scratch)) => Some(scratch)
    case Executing(_, OkSave(merged)) => Some(merged)
    case Executing(_, TailSave(snapshot)) => Some(snapshot)
    case Tearing(_, _, ResetTailSave(snapshot, _)) => Some(snapshot)
    case Deciding(_, _, _, DecideSaving(snapshot)) => Some(snapshot)
    case Stopping(_, _, StopTailSave(snapshot)) => Some(snapshot)
    case _ => None
  }

  /**
   * Every snapshot any schedule hands to Save is one Recover takes, and those of runs this process
   * started name its cluster and the toolchain it was wired with.
   */
  lemma SavedIsRecoverable(w: Wiring, had: set<string>, s: Sys, evs: seq<Event>, tid: nat)
    requires Phased(w) && Safety.Booted(s) && AllFine(w, had, s) && AllTimed(evs)
    requires var t := After(w, s, evs); tid in t.threads && Saving(t.threads[tid]).Some?
    ensures var r := Saving(After(w, s, evs).threads[tid]).value;
            Recoverable(w, r) && (r.id !in had ==> r.clusterUID == w.clusterUID && r.toolchain == w.toolchain)
  {
    AlwaysFine(w, had, s, evs);
    assert ThreadFine(w, had, After(w, s, evs).threads[tid]);
  }

  /**
   * So whatever a schedule saved last before the process died, the next process has that run in place
   * with every guard its fields called for, as long as the record is small enough to be read back.
   */
  lemma CrashLosesNoGuard(c: Codec, ceiling: nat, e: Eng, b: int, w: Wiring, had: set<string>, s: Sys,
    evs: seq<Event>, tid: nat)
    requires Phased(w) && Safety.Booted(s) && AllFine(w, had, s) && AllTimed(evs) && FreshProcess(e)
    requires var t := After(w, s, evs); tid in t.threads && Saving(t.threads[tid]).Some?
    requires Readable(c, ceiling, Saving(After(w, s, evs).threads[tid]).value)
    ensures var r := Saving(After(w, s, evs).threads[tid]).value;
            var e' := AfterCrash(c, ceiling, e, w, b, r);
            && Holds(e', r.id) && !IsLive(e'.current.value.state) && StartRefusal(e').Some?
            && (DiscardRefusal(e', r.id).Some? <==>
                  r.state == Active || r.state == Resetting || r.residue.incomplete ||
                    (r.cleanupUnconfirmed && r.state != Done))
            && (RetryRefusal(e', r.id).Some? <==>
                  r.state == Active || r.state == Done || r.state == Resetting || r.residue.incomplete)
  {
    SavedIsRecoverable(w, had, s, evs, tid);
    SavedGuardsHold(c, ceiling, e, w, b, Saving(After(w, s, evs).threads[tid]).value);
  }

  /** A process boots fine on nothing, on what Recover installed, and on what reconciliation adopted. */
  lemma BootsFine(w: Wiring, b: int, load: Load, o: OwnedWorkload, now: nat)
    requires TheBundle(w.steps, b) && now != 0 && Adoptable(o)
    ensures RecoverSpec(w, Some(b), load).Installed? ==> Recoverable(w, RecoverSpec(w, Some(b), load).run)
    ensures Recoverable(w, Adopted(w, o, now))
  {
  }
}
