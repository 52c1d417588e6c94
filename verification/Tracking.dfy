/**
 * The workload a run proves itself with is never orphaned: whenever it may still be in the
 * cluster, its run is the current one and is live, Active, or Failed behind a guard.
 */
module Tracking {
  import opened Wrappers
  import opened Runs
  import opened EngineSpec
  import opened Machine
  import opened Structure

  /** Prove comes last, alone, and is the step that leaves a workload running. */
  predicate ProveLast(w: Wiring) {
    && |w.steps| > 0
    && w.steps[|w.steps| - 1].phase == Prove && w.steps[|w.steps| - 1].leavesRunning
    && (forall i :: 0 <= i < |w.steps| - 1 ==> w.steps[i].phase != Prove)
  }

  /** A driver that may have a workload in the cluster on behalf of r. */
  predicate DriverMayHold(w: Wiring, t: Thread, r: Run)
    requires Driver(t)
  {
    match t
    case Launching(_, how, _) => LaunchMayHold(how, r)
    case Undoing(_, how, _) => LaunchMayHold(how, r)
    case Executing(_, pc) => PcMayHold(w, pc, r)
    case Tearing(_, _, rpc) =>
      match rpc
      case Look => true
      case Ensure(_) => true
      case Record(residue, reached) => !reached && residue.incomplete
      case ResetFinish(incomplete) => incomplete && r.residue.incomplete
      case _ => false
  }

  predicate LaunchMayHold(how: Launch, r: Run) {
    match how
    case ByStart(_) => false
    case ByRetry(_) => r.cleanupUnconfirmed
    case ByReset => true
  }

  predicate PcMayHold(w: Wiring, pc: Pc, r: Run) {
    match pc
    case Stepping(_, _, call) => r.cleanupUnconfirmed || call.AwaitGang? || call.DeleteJob? || call.WaitAbsent?
    case MergeFail(_, _, why) => why == Unconfirmed || (why == Plain && r.cleanupUnconfirmed)
    case MergeOk(i, _) => r.cleanupUnconfirmed || i == |w.steps| - 1
    case OkClear(_, _) => r.cleanupUnconfirmed || r.stepIndex == |w.steps|
    case OkSave(_) => r.cleanupUnconfirmed || r.stepIndex == |w.steps|
    case Top => r.cleanupUnconfirmed || r.stepIndex == |w.steps|
    case Finish(state) => r.cleanupUnconfirmed || state == Active
    case _ => r.cleanupUnconfirmed
  }

  /** The states in which an undriven run still vouches for its workload. */
  predicate Guarded(r: Run) {
    r.state == Active || (r.state == Failed && (r.cleanupUnconfirmed || r.residue.incomplete))
  }

  predicate MayHold(w: Wiring, s: Sys) {
    && s.eng.current.Some?
    && if CurrentLive(s) then HasOwner(s) && Driver(OwnerOf(s)) && DriverMayHold(w, OwnerOf(s), s.eng.current.value)
       else Guarded(s.eng.current.value)
  }

  /** Prove's calls are made by the Prove step alone, and a goroutine ends Active or Failed. */
  predicate StepCallOk(w: Wiring, t: Thread) {
    t.Executing? ==>
      && (t.pc.Stepping? && 0 <= t.pc.i < |w.steps| ==> (t.pc.call.Whole? <==> w.steps[t.pc.i].phase != Prove))
      && (t.pc.Finish? ==> t.pc.state == Active || t.pc.state == Failed)
  }

  /** The runs whose workload is there and still vouched for. */
  function Held(s: Sys): set<string> { s.workloads - s.h.lost }

  predicate WorkloadsOk(w: Wiring, s: Sys) {
    && (forall id :: id in Held(s) ==> Holds(s.eng, id))
    && (Held(s) != {} ==> MayHold(w, s))
  }

  /** A Stop that has seen the workload gone. */
  predicate SeenGone(s: Sys, t: Thread) { t.Stopping? && t.epoch == s.eng.epoch && !t.spc.StopEnsure? }

  predicate Tracked(w: Wiring, s: Sys) {
    && (forall tid :: tid in s.threads ==> StepCallOk(w, s.threads[tid]))
    && (forall tid :: tid in s.threads && SeenGone(s, s.threads[tid]) ==> Held(s) == {})
    && WorkloadsOk(w, s)
  }

  // ---- frames ----

  /** The driver of a live run moves; while it drives, no Stop is past its ensure. */
  lemma DriverTracks(w: Wiring, s: Sys, s': Sys, tid: nat)
    requires Inv(w, s) && Tracked(w, s) && OnlyMoves(s, s', tid) && Driver(s.threads[tid])
    requires tid in s'.threads && !s'.threads[tid].Stopping? && StepCallOk(w, s'.threads[tid])
    requires WorkloadsOk(w, s')
    ensures Tracked(w, s')
  {
    OneDriver(w, s, tid);
    forall u | u in s'.threads && u != tid
      ensures u in s.threads && s'.threads[u] == s.threads[u] && !SeenGone(s', s'.threads[u])
    {
      Untouched(s, s', tid, u);
      assert CallOk(ViewOf(w, s), u, s.threads[u]);
    }
  }

  /** What a driver knows of the system it moves in. */
  lemma DriverKnows(w: Wiring, s: Sys, tid: nat)
    requires Inv(w, s) && Tracked(w, s) && tid in s.threads && Driver(s.threads[tid])
    ensures HasOwner(s) && s.h.ownerOf[s.eng.epoch] == tid && OwnerOf(s) == s.threads[tid]
    ensures s.threads[tid].epoch == s.eng.epoch && CurrentLive(s)
    ensures DriverOk(ViewOf(w, s), s.threads[tid]) && StepCallOk(w, s.threads[tid])
    ensures s.eng.current.value.id == s.h.slot && 0 <= s.eng.current.value.stepIndex
    ensures Held(s) != {} ==> DriverMayHold(w, s.threads[tid], s.eng.current.value)
    ensures forall id :: id in Held(s) ==> id == s.eng.current.value.id
  {
    OneDriver(w, s, tid);
  }

  /** Everyone else moves without touching what vouches for the workload. */
  lemma OthersTrack(w: Wiring, s: Sys, s': Sys, tid: nat)
    requires Tracked(w, s) && tid in s.threads && !Driver(s.threads[tid]) && ThreadsMove(s.threads, s'.threads, tid)
    requires s'.eng.epoch == s.eng.epoch && s'.h.ownerOf == s.h.ownerOf && Held(s') == Held(s)
    requires s'.eng.current == s.eng.current || Held(s) == {} ||
             (s.eng.current.Some? && s'.eng.current.Some? &&
              var a, b := s.eng.current.value, s'.eng.current.value;
              && IsLive(a.state) && IsLive(b.state) && b.id == a.id && b.stepIndex == a.stepIndex
              && b.cleanupUnconfirmed == a.cleanupUnconfirmed && b.residue == a.residue)
    requires tid in s'.threads ==> !Driver(s'.threads[tid]) && StepCallOk(w, s'.threads[tid])
    requires tid in s'.threads && SeenGone(s', s'.threads[tid]) ==>
             Held(s) == {} || SeenGone(s, s.threads[tid])
    ensures Tracked(w, s')
  {
    forall u | u in s'.threads && u != tid
      ensures u in s.threads && s'.threads[u] == s.threads[u]
    {
      Untouched(s, s', tid, u);
    }
    if CurrentLive(s) && MayHold(w, s) {
      Untouched(s, s', tid, s.h.ownerOf[s.eng.epoch]);
    }
  }

  // ---- the execute goroutine ----

  lemma LaunchTracks(w: Wiring, s: Sys, tid: nat, a: Answer)
    requires ProveLast(w) && Inv(w, s) && Tracked(w, s) && tid in s.threads && s.threads[tid].Launching?
    ensures Tracked(w, Window(w, s, tid, s.threads[tid], a))
  {
    hide Inv, Tracked;
    var s' := Window(w, s, tid, s.threads[tid], a);
    DriverKnows(w, s, tid);
    assert Held(s') == Held(s);
    DriverTracks(w, s, s', tid);
  }

  lemma WholeStepTracks(w: Wiring, s: Sys, tid: nat, a: Answer)
    requires ProveLast(w) && Inv(w, s) && Tracked(w, s) && tid in s.threads && s.threads[tid].Executing? &&
             s.threads[tid].pc.Stepping? && s.threads[tid].pc.call.Whole?
    ensures Tracked(w, Execute(w, s, tid, s.threads[tid].epoch, s.threads[tid].pc, a))
  {
    hide Inv, Tracked;
    var s' := Execute(w, s, tid, s.threads[tid].epoch, s.threads[tid].pc, a);
    DriverKnows(w, s, tid);
    assert Held(s') == Held(s);
    if s' != s {
      DriverTracks(w, s, s', tid);
    }
  }

  lemma EnsureNamespaceTracks(w: Wiring, s: Sys, tid: nat, a: Answer)
    requires ProveLast(w) && Inv(w, s) && Tracked(w, s) && tid in s.threads && s.threads[tid].Executing? &&
             s.threads[tid].pc.Stepping? && s.threads[tid].pc.call.EnsureNamespace?
    ensures Tracked(w, Execute(w, s, tid, s.threads[tid].epoch, s.threads[tid].pc, a))
  {
    hide Inv, Tracked;
    var s' := Execute(w, s, tid, s.threads[tid].epoch, s.threads[tid].pc, a);
    DriverKnows(w, s, tid);
    assert Held(s') == Held(s);
    DriverTracks(w, s, s', tid);
  }

  lemma AwaitGangTracks(w: Wiring, s: Sys, tid: nat, a: Answer)
    requires ProveLast(w) && Inv(w, s) && Tracked(w, s) && tid in s.threads && s.threads[tid].Executing? &&
             s.threads[tid].pc.Stepping? && s.threads[tid].pc.call.AwaitGang?
    ensures Tracked(w, Execute(w, s, tid, s.threads[tid].epoch, s.threads[tid].pc, a))
  {
    hide Inv, Tracked;
    var s' := Execute(w, s, tid, s.threads[tid].epoch, s.threads[tid].pc, a);
    DriverKnows(w, s, tid);
    assert Held(s') == Held(s);
    DriverTracks(w, s, s', tid);
  }

  lemma CreateTracks(w: Wiring, s: Sys, tid: nat, a: Answer)
    requires ProveLast(w) && Inv(w, s) && Tracked(w, s) && tid in s.threads && s.threads[tid].Executing? &&
             s.threads[tid].pc.Stepping? && s.threads[tid].pc.call.CreateJob?
    ensures Tracked(w, Execute(w, s, tid, s.threads[tid].epoch, s.threads[tid].pc, a))
  {
    hide Inv, Tracked;
    var s' := Execute(w, s, tid, s.threads[tid].epoch, s.threads[tid].pc, a);
    DriverKnows(w, s, tid);
    assert Held(s') == if a.landed then Held(s) + {s.eng.current.value.id} else Held(s);
    DriverTracks(w, s, s', tid);
  }

  lemma DeleteTracks(w: Wiring, s: Sys, tid: nat, a: Answer)
    requires ProveLast(w) && Inv(w, s) && Tracked(w, s) && tid in s.threads && s.threads[tid].Executing? &&
             s.threads[tid].pc.Stepping? && (s.threads[tid].pc.call.DeleteJob? || s.threads[tid].pc.call.WaitAbsent?)
    ensures Tracked(w, Execute(w, s, tid, s.threads[tid].epoch, s.threads[tid].pc, a))
  {
    hide Inv, Tracked;
    var s' := Execute(w, s, tid, s.threads[tid].epoch, s.threads[tid].pc, a);
    DriverKnows(w, s, tid);
    assert Held(s') == Held(s);
    if s' != s {
      DriverTracks(w, s, s', tid);
    }
  }

  lemma TopTracks(w: Wiring, s: Sys, tid: nat, a: Answer)
    requires ProveLast(w) && Inv(w, s) && Tracked(w, s) && tid in s.threads && s.threads[tid].Executing?
    requires var pc := s.threads[tid].pc; pc.Top?
    ensures Tracked(w, Execute(w, s, tid, s.threads[tid].epoch, s.threads[tid].pc, a))
  {
    hide Inv, Tracked;
    var s' := Execute(w, s, tid, s.threads[tid].epoch, s.threads[tid].pc, a);
    DriverKnows(w, s, tid);
    assert Held(s') == Held(s);
    if s' != s {
      DriverTracks(w, s, s', tid);
    }
  }

  lemma AwaitTracks(w: Wiring, s: Sys, tid: nat, a: Answer)
    requires ProveLast(w) && Inv(w, s) && Tracked(w, s) && tid in s.threads && s.threads[tid].Executing?
    requires s.threads[tid].pc.Await?
    ensures Tracked(w, Execute(w, s, tid, s.threads[tid].epoch, s.threads[tid].pc, a))
  {
    hide Inv, Tracked, Execute;
    var t := s.threads[tid];
    DriverKnows(w, s, tid);
    AwaitIsGate(w, s, tid, t.epoch, t.pc.i, a);
    assert Held(Execute(w, s, tid, t.epoch, t.pc, a)) == Held(s);
    DriverTracks(w, s, Execute(w, s, tid, t.epoch, t.pc, a), tid);
  }

  lemma AwaitSaveTracks(w: Wiring, s: Sys, tid: nat, a: Answer)
    requires ProveLast(w) && Inv(w, s) && Tracked(w, s) && tid in s.threads && s.threads[tid].Executing?
    requires s.threads[tid].pc.AwaitSave?
    ensures Tracked(w, Execute(w, s, tid, s.threads[tid].epoch, s.threads[tid].pc, a))
  {
    hide Inv, Tracked;
    var s' := Execute(w, s, tid, s.threads[tid].epoch, s.threads[tid].pc, a);
    DriverKnows(w, s, tid);
    assert Held(s') == Held(s);
    if s' != s {
      DriverTracks(w, s, s', tid);
    }
  }

  lemma ParkTracks(w: Wiring, s: Sys, tid: nat, a: Answer)
    requires ProveLast(w) && Inv(w, s) && Tracked(w, s) && tid in s.threads && s.threads[tid].Executing?
    requires s.threads[tid].pc.Park?
    ensures Tracked(w, Execute(w, s, tid, s.threads[tid].epoch, s.threads[tid].pc, a))
  {
    hide Inv, Tracked;
    var s' := Execute(w, s, tid, s.threads[tid].epoch, s.threads[tid].pc, a);
    DriverKnows(w, s, tid);
    assert Held(s') == Held(s);
    if s' != s {
      DriverTracks(w, s, s', tid);
    }
  }

  lemma BeginTracks(w: Wiring, s: Sys, tid: nat, a: Answer)
    requires ProveLast(w) && Inv(w, s) && Tracked(w, s) && tid in s.threads && s.threads[tid].Executing?
    requires s.threads[tid].pc.Begin?
    ensures Tracked(w, Execute(w, s, tid, s.threads[tid].epoch, s.threads[tid].pc, a))
  {
    hide Inv, Tracked;
    var s' := Execute(w, s, tid, s.threads[tid].epoch, s.threads[tid].pc, a);
    DriverKnows(w, s, tid);
    assert Held(s') == Held(s);
    DriverTracks(w, s, s', tid);
  }

  lemma BeginSaveTracks(w: Wiring, s: Sys, tid: nat, a: Answer)
    requires ProveLast(w) && Inv(w, s) && Tracked(w, s) && tid in s.threads && s.threads[tid].Executing?
    requires s.threads[tid].pc.BeginSave?
    ensures Tracked(w, Execute(w, s, tid, s.threads[tid].epoch, s.threads[tid].pc, a))
  {
    hide Inv, Tracked;
    var s' := Execute(w, s, tid, s.threads[tid].epoch, s.threads[tid].pc, a);
    DriverKnows(w, s, tid);
    assert Held(s') == Held(s);
    DriverTracks(w, s, s', tid);
  }

  lemma MergeFailTracks(w: Wiring, s: Sys, tid: nat, a: Answer)
    requires ProveLast(w) && Inv(w, s) && Tracked(w, s) && tid in s.threads && s.threads[tid].Executing?
    requires s.threads[tid].pc.MergeFail?
    ensures Tracked(w, Execute(w, s, tid, s.threads[tid].epoch, s.threads[tid].pc, a))
  {
    hide Inv, Tracked;
    var s' := Execute(w, s, tid, s.threads[tid].epoch, s.threads[tid].pc, a);
    DriverKnows(w, s, tid);
    assert Held(s') == Held(s);
    DriverTracks(w, s, s', tid);
  }

  lemma FailClearTracks(w: Wiring, s: Sys, tid: nat, a: Answer)
    requires ProveLast(w) && Inv(w, s) && Tracked(w, s) && tid in s.threads && s.threads[tid].Executing?
    requires s.threads[tid].pc.FailClear?
    ensures Tracked(w, Execute(w, s, tid, s.threads[tid].epoch, s.threads[tid].pc, a))
  {
    hide Inv, Tracked;
    var s' := Execute(w, s, tid, s.threads[tid].epoch, s.threads[tid].pc, a);
    DriverKnows(w, s, tid);
    assert Held(s') == Held(s);
    DriverTracks(w, s, s', tid);
  }

  lemma MergeOkTracks(w: Wiring, s: Sys, tid: nat, a: Answer)
    requires ProveLast(w) && Inv(w, s) && Tracked(w, s) && tid in s.threads && s.threads[tid].Executing?
    requires s.threads[tid].pc.MergeOk?
    ensures Tracked(w, Execute(w, s, tid, s.threads[tid].epoch, s.threads[tid].pc, a))
  {
    hide Inv, Tracked;
    var s' := Execute(w, s, tid, s.threads[tid].epoch, s.threads[tid].pc, a);
    DriverKnows(w, s, tid);
    assert Held(s') == Held(s);
    DriverTracks(w, s, s', tid);
  }

  lemma OkSaveTracks(w: Wiring, s: Sys, tid: nat, a: Answer)
    requires ProveLast(w) && Inv(w, s) && Tracked(w, s) && tid in s.threads && s.threads[tid].Executing?
    requires s.threads[tid].pc.OkSave?
    ensures Tracked(w, Execute(w, s, tid, s.threads[tid].epoch, s.threads[tid].pc, a))
  {
    hide Inv, Tracked;
    var s' := Execute(w, s, tid, s.threads[tid].epoch, s.threads[tid].pc, a);
    DriverKnows(w, s, tid);
    assert Held(s') == Held(s);
    DriverTracks(w, s, s', tid);
  }

  lemma OkClearTracks(w: Wiring, s: Sys, tid: nat, a: Answer)
    requires ProveLast(w) && Inv(w, s) && Tracked(w, s) && tid in s.threads && s.threads[tid].Executing?
    requires var pc := s.threads[tid].pc; pc.OkClear?
    ensures Tracked(w, Execute(w, s, tid, s.threads[tid].epoch, s.threads[tid].pc, a))
  {
    hide Inv, Tracked;
    var s' := Execute(w, s, tid, s.threads[tid].epoch, s.threads[tid].pc, a);
    DriverKnows(w, s, tid);
    assert Held(s') == Held(s);
    DriverTracks(w, s, s', tid);
  }

  lemma FinishTracks(w: Wiring, s: Sys, tid: nat, a: Answer)
    requires ProveLast(w) && Inv(w, s) && Tracked(w, s) && tid in s.threads && s.threads[tid].Executing? &&
             s.threads[tid].pc.Finish?
    ensures Tracked(w, Execute(w, s, tid, s.threads[tid].epoch, s.threads[tid].pc, a))
  {
    hide Inv, Tracked;
    var s' := Execute(w, s, tid, s.threads[tid].epoch, s.threads[tid].pc, a);
    DriverKnows(w, s, tid);
    assert Held(s') == Held(s);
    DriverTracks(w, s, s', tid);
  }

  lemma TailTracks(w: Wiring, s: Sys, tid: nat, a: Answer)
    requires Tracked(w, s) && tid in s.threads && s.threads[tid].Executing?
    requires var pc := s.threads[tid].pc; pc.TailClear? || pc.TailSave?
    ensures Tracked(w, Execute(w, s, tid, s.threads[tid].epoch, s.threads[tid].pc, a))
  {
    OthersTrack(w, s, Execute(w, s, tid, s.threads[tid].epoch, s.threads[tid].pc, a), tid);
  }

  // ---- the reset goroutine, failed launches ----

  lemma EnsureTracks(w: Wiring, s: Sys, tid: nat, a: Answer)
    requires ProveLast(w) && Inv(w, s) && Tracked(w, s) && tid in s.threads && s.threads[tid].Tearing? &&
             (s.threads[tid].rpc.Look? || s.threads[tid].rpc.Ensure? || s.threads[tid].rpc.Uninstall?)
    ensures var t := s.threads[tid]; Tracked(w, Teardown(s, tid, t.epoch, t.runId, t.rpc, a))
  {
    hide Inv, Tracked;
    var t := s.threads[tid];
    var s' := Teardown(s, tid, t.epoch, t.runId, t.rpc, a);
    DriverKnows(w, s, tid);
    assert Held(s') == Held(s);
    if s' != s {
      DriverTracks(w, s, s', tid);
    }
  }

  lemma RecordTracks(w: Wiring, s: Sys, tid: nat, a: Answer)
    requires ProveLast(w) && Inv(w, s) && Tracked(w, s) && tid in s.threads && s.threads[tid].Tearing? &&
             s.threads[tid].rpc.Record?
    ensures var t := s.threads[tid]; Tracked(w, Teardown(s, tid, t.epoch, t.runId, t.rpc, a))
  {
    hide Inv, Tracked;
    var t := s.threads[tid];
    var s' := Teardown(s, tid, t.epoch, t.runId, t.rpc, a);
    DriverKnows(w, s, tid);
    assert Held(s') == Held(s);
    DriverTracks(w, s, s', tid);
  }

  lemma ReviewTracks(w: Wiring, s: Sys, tid: nat, a: Answer)
    requires ProveLast(w) && Inv(w, s) && Tracked(w, s) && tid in s.threads && s.threads[tid].Tearing? &&
             s.threads[tid].rpc.Review?
    ensures var t := s.threads[tid]; Tracked(w, Teardown(s, tid, t.epoch, t.runId, t.rpc, a))
  {
    hide Inv, Tracked;
    var t := s.threads[tid];
    var s' := Teardown(s, tid, t.epoch, t.runId, t.rpc, a);
    DriverKnows(w, s, tid);
    assert Held(s') == Held(s);
    DriverTracks(w, s, s', tid);
  }

  lemma ResetFinishTracks(w: Wiring, s: Sys, tid: nat, a: Answer)
    requires ProveLast(w) && Inv(w, s) && Tracked(w, s) && tid in s.threads && s.threads[tid].Tearing? &&
             s.threads[tid].rpc.ResetFinish?
    ensures var t := s.threads[tid]; Tracked(w, Teardown(s, tid, t.epoch, t.runId, t.rpc, a))
  {
    hide Inv, Tracked;
    var t := s.threads[tid];
    var s' := Teardown(s, tid, t.epoch, t.runId, t.rpc, a);
    DriverKnows(w, s, tid);
    assert Held(s') == Held(s);
    DriverTracks(w, s, s', tid);
  }

  lemma TornClearTracks(w: Wiring, s: Sys, tid: nat, a: Answer)
    requires Tracked(w, s) && tid in s.threads && s.threads[tid].Tearing? && s.threads[tid].rpc.ResetTailClear?
    ensures var t := s.threads[tid]; Tracked(w, Teardown(s, tid, t.epoch, t.runId, t.rpc, a))
  {
    var t := s.threads[tid];
    OthersTrack(w, s, Teardown(s, tid, t.epoch, t.runId, t.rpc, a), tid);
  }

  lemma TornSaveTracks(w: Wiring, s: Sys, tid: nat, a: Answer)
    requires Tracked(w, s) && tid in s.threads && s.threads[tid].Tearing? && s.threads[tid].rpc.ResetTailSave?
    ensures var t := s.threads[tid]; Tracked(w, Teardown(s, tid, t.epoch, t.runId, t.rpc, a))
  {
    var t := s.threads[tid];
    OthersTrack(w, s, Teardown(s, tid, t.epoch, t.runId, t.rpc, a), tid);
  }

  lemma TornReleaseTracks(w: Wiring, s: Sys, tid: nat, a: Answer)
    requires Tracked(w, s) && tid in s.threads && s.threads[tid].Tearing? &&
             (s.threads[tid].rpc.DeleteRecord? || s.threads[tid].rpc.Release?)
    ensures var t := s.threads[tid]; Tracked(w, Teardown(s, tid, t.epoch, t.runId, t.rpc, a))
  {
    var t := s.threads[tid];
    OthersTrack(w, s, Teardown(s, tid, t.epoch, t.runId, t.rpc, a), tid);
  }

  lemma ClosingTracks(w: Wiring, s: Sys, tid: nat, a: Answer)
    requires Tracked(w, s) && tid in s.threads && s.threads[tid].Closing?
    ensures Tracked(w, Window(w, s, tid, s.threads[tid], a))
  {
    OthersTrack(w, s, Window(w, s, tid, s.threads[tid], a), tid);
  }

  /** A failed launch has ended, and nobody had seen the workload gone. */
  lemma UndoneTracks(w: Wiring, s: Sys, s': Sys, tid: nat)
    requires Inv(w, s) && Tracked(w, s) && tid in s.threads && s.threads[tid].Undoing?
    requires s'.threads == s.threads[tid := Closing(s.threads[tid].epoch)] && s'.eng.epoch == s.eng.epoch
    requires WorkloadsOk(w, s')
    ensures Tracked(w, s')
  {
    OneDriver(w, s, tid);
    forall u | u in s'.threads && u != tid
      ensures u in s.threads && s'.threads[u] == s.threads[u] && !SeenGone(s', s'.threads[u])
    {
      assert CallOk(ViewOf(w, s), u, s.threads[u]);
    }
  }

  lemma UndoStartTracks(w: Wiring, s: Sys, tid: nat, a: Answer)
    requires ProveLast(w) && Inv(w, s) && Tracked(w, s) && tid in s.threads && s.threads[tid].Undoing?
    requires s.threads[tid].how.ByStart?
    ensures Tracked(w, Window(w, s, tid, s.threads[tid], a))
  {
    hide Inv, Tracked;
    var s' := Window(w, s, tid, s.threads[tid], a);
    DriverKnows(w, s, tid);
    assert Held(s') <= Held(s);
    UndoneTracks(w, s, s', tid);
  }

  lemma UndoRetryTracks(w: Wiring, s: Sys, tid: nat, a: Answer)
    requires ProveLast(w) && Inv(w, s) && Tracked(w, s) && tid in s.threads && s.threads[tid].Undoing?
    requires s.threads[tid].how.ByRetry?
    ensures Tracked(w, Window(w, s, tid, s.threads[tid], a))
  {
    hide Inv, Tracked;
    var s' := Window(w, s, tid, s.threads[tid], a);
    DriverKnows(w, s, tid);
    assert Held(s') <= Held(s);
    UndoneTracks(w, s, s', tid);
  }

  /** Only a failed Reset checkpoint can drop the guard, and that is what lost records. */
  lemma UndoResetTracks(w: Wiring, s: Sys, tid: nat, a: Answer)
    requires ProveLast(w) && Inv(w, s) && Tracked(w, s) && tid in s.threads && s.threads[tid].Undoing?
    requires s.threads[tid].how.ByReset?
    ensures Tracked(w, Window(w, s, tid, s.threads[tid], a))
  {
    hide Inv, Tracked;
    var s' := Window(w, s, tid, s.threads[tid], a);
    DriverKnows(w, s, tid);
    assert Held(s') <= Held(s);
    UndoneTracks(w, s, s', tid);
  }

  // ---- Decide, Discard, Stop, CancelAndWait ----

  lemma DecideSaveTracks(w: Wiring, s: Sys, tid: nat, a: Answer)
    requires Inv(w, s) && Tracked(w, s) && tid in s.threads && s.threads[tid].Deciding? &&
             s.threads[tid].dpc.DecideSaving?
    ensures var t := s.threads[tid]; Tracked(w, Decision(s, tid, t.epoch, t.runId, t.prev, t.dpc, a))
  {
    var t := s.threads[tid];
    assert CallOk(ViewOf(w, s), tid, t);
    OthersTrack(w, s, Decision(s, tid, t.epoch, t.runId, t.prev, t.dpc, a), tid);
  }

  lemma DecidedTracks(w: Wiring, s: Sys, tid: nat, a: Answer)
    requires Inv(w, s) && Tracked(w, s) && tid in s.threads && s.threads[tid].Deciding? &&
             !s.threads[tid].dpc.DecideSaving?
    ensures var t := s.threads[tid]; Tracked(w, Decision(s, tid, t.epoch, t.runId, t.prev, t.dpc, a))
  {
    var t := s.threads[tid];
    assert CallOk(ViewOf(w, s), tid, t);
    OthersTrack(w, s, Decision(s, tid, t.epoch, t.runId, t.prev, t.dpc, a), tid);
  }

  /** No run, no workload: a Discard is only accepted, and only undone, over an empty cluster. */
  lemma DiscardingTracks(w: Wiring, s: Sys, tid: nat, a: Answer)
    requires Tracked(w, s) && tid in s.threads && s.threads[tid].Discarding?
    ensures Tracked(w, Move(w, s, tid, a))
  {
    var s' := Move(w, s, tid, a);
    assert s.eng.current.None? ==> Held(s) == {};
    OthersTrack(w, s, s', tid);
  }

  /** Stop only clears the sticky flag after it has seen its workload gone. */
  lemma StopEnsureTracks(w: Wiring, s: Sys, tid: nat, a: Answer)
    requires Inv(w, s) && Tracked(w, s) && tid in s.threads && s.threads[tid].Stopping? &&
             s.threads[tid].spc.StopEnsure?
    ensures var t := s.threads[tid]; Tracked(w, Stop(s, tid, t.epoch, t.runId, t.spc, a))
  {
    var t := s.threads[tid];
    var s' := Stop(s, tid, t.epoch, t.runId, t.spc, a);
    assert CallOk(ViewOf(w, s), tid, t);
    OthersTrack(w, s, s', tid);
  }

  lemma StopRecordTracks(w: Wiring, s: Sys, tid: nat, a: Answer)
    requires Inv(w, s) && Tracked(w, s) && tid in s.threads && s.threads[tid].Stopping? &&
             (s.threads[tid].spc.StopRecording? || s.threads[tid].spc.StopFinish?)
    ensures var t := s.threads[tid]; Tracked(w, Stop(s, tid, t.epoch, t.runId, t.spc, a))
  {
    var t := s.threads[tid];
    var s' := Stop(s, tid, t.epoch, t.runId, t.spc, a);
    assert CallOk(ViewOf(w, s), tid, t);
    OthersTrack(w, s, s', tid);
  }

  lemma StopTailTracks(w: Wiring, s: Sys, tid: nat, a: Answer)
    requires Inv(w, s) && Tracked(w, s) && tid in s.threads && s.threads[tid].Stopping? &&
             (s.threads[tid].spc.StopTailClear? || s.threads[tid].spc.StopTailSave? || s.threads[tid].spc.StopRelease?)
    ensures var t := s.threads[tid]; Tracked(w, Stop(s, tid, t.epoch, t.runId, t.spc, a))
  {
    var t := s.threads[tid];
    var s' := Stop(s, tid, t.epoch, t.runId, t.spc, a);
    assert CallOk(ViewOf(w, s), tid, t);
    OthersTrack(w, s, s', tid);
  }

  /** A launch: no Stop of the new epoch exists yet. */
  lemma LaunchedTracks(w: Wiring, s: Sys, s': Sys, tid: nat)
    requires Inv(w, s) && Tracked(w, s) && !CurrentLive(s) && tid !in s.threads
    requires tid in s'.threads && s'.threads == s.threads[tid := s'.threads[tid]] && s'.threads[tid].Launching?
    requires s'.eng.epoch == s.eng.epoch + 1 && s'.h.ownerOf == s.h.ownerOf[s'.eng.epoch := tid]
    requires Held(s') == Held(s) && CurrentLive(s')
    requires Held(s) != {} ==>
      Holds(s.eng, s'.eng.current.value.id) &&
        (Guarded(s.eng.current.value) ==> LaunchMayHold(s'.threads[tid].how, s'.eng.current.value))
    ensures Tracked(w, s')
  {
    forall u | u in s'.threads
      ensures StepCallOk(w, s'.threads[u]) && !SeenGone(s', s'.threads[u])
    {
    }
  }

  lemma LaunchCallTracks(w: Wiring, s: Sys, ev: Event)
    requires Inv(w, s) && Tracked(w, s) && (ev.CallStart? || ev.CallRetry? || ev.CallReset?)
    ensures Tracked(w, Call(w, s, ev))
  {
    var s' := Call(w, s, ev);
    if s' != s {
      LaunchedTracks(w, s, s', ev.tid);
    }
  }

  /** A call that parks nothing in the cluster and keeps its run's guard. */
  lemma DecideCallTracks(w: Wiring, s: Sys, ev: Event)
    requires Inv(w, s) && Tracked(w, s) && ev.CallDecide?
    ensures Tracked(w, Call(w, s, ev))
  {
    hide Inv, Tracked;
    var s' := Call(w, s, ev);
    if s' != s { AcceptedTracks(w, s, s', ev.tid); }
  }

  lemma AcceptedTracks(w: Wiring, s: Sys, s': Sys, tid: nat)
    requires Tracked(w, s) && tid !in s.threads && tid in s'.threads && s'.threads == s.threads[tid := s'.threads[tid]]
    requires s'.threads[tid].Deciding? && s'.eng.epoch == s.eng.epoch && s'.h.ownerOf == s.h.ownerOf
    requires s'.workloads == s.workloads && s'.h.lost == s.h.lost && CurrentLive(s) && CurrentLive(s')
    requires var a, b := s.eng.current.value, s'.eng.current.value;
             && b.id == a.id && b.stepIndex == a.stepIndex
             && b.cleanupUnconfirmed == a.cleanupUnconfirmed && b.residue == a.residue
    ensures Tracked(w, s')
  {
    assert Held(s') == Held(s);
    forall u | u in s'.threads
      ensures StepCallOk(w, s'.threads[u])
      ensures SeenGone(s', s'.threads[u]) ==> u in s.threads && SeenGone(s, s.threads[u])
    {
    }
  }

  lemma DiscardCallTracks(w: Wiring, s: Sys, ev: Event)
    requires Inv(w, s) && Tracked(w, s) && ev.CallDiscard?
    ensures Tracked(w, Call(w, s, ev))
  {
    var s' := Call(w, s, ev);
    forall u | u in s'.threads
      ensures StepCallOk(w, s'.threads[u])
      ensures SeenGone(s', s'.threads[u]) ==> u in s.threads && SeenGone(s, s.threads[u])
    {
    }
  }

  lemma StopCallTracks(w: Wiring, s: Sys, ev: Event)
    requires Inv(w, s) && Tracked(w, s) && ev.CallStop?
    ensures Tracked(w, Call(w, s, ev))
  {
    var s' := Call(w, s, ev);
    forall u | u in s'.threads
      ensures StepCallOk(w, s'.threads[u])
      ensures SeenGone(s', s'.threads[u]) ==> u in s.threads && SeenGone(s, s.threads[u])
    {
    }
  }

  lemma CancelCallTracks(w: Wiring, s: Sys, ev: Event)
    requires Inv(w, s) && Tracked(w, s) && ev.CallCancel?
    ensures Tracked(w, Call(w, s, ev))
  {
    var s' := Call(w, s, ev);
    forall u | u in s'.threads
      ensures StepCallOk(w, s'.threads[u])
      ensures SeenGone(s', s'.threads[u]) ==> u in s.threads && SeenGone(s, s.threads[u])
    {
    }
  }

  lemma ExecuteTracks(w: Wiring, s: Sys, tid: nat, a: Answer)
    requires ProveLast(w) && Inv(w, s) && Tracked(w, s) && tid in s.threads && s.threads[tid].Executing?
    ensures Tracked(w, Execute(w, s, tid, s.threads[tid].epoch, s.threads[tid].pc, a))
  {
    match s.threads[tid].pc
    case Top => TopTracks(w, s, tid, a);
    case Await(_) => AwaitTracks(w, s, tid, a);
    case AwaitSave(_, _, _) => AwaitSaveTracks(w, s, tid, a);
    case Park(_, _) => ParkTracks(w, s, tid, a);
    case Begin(_) => BeginTracks(w, s, tid, a);
    case BeginSave(_, _) => BeginSaveTracks(w, s, tid, a);
    case Stepping(_, _, call) =>
      if call.Whole? { WholeStepTracks(w, s, tid, a); }
      else if call.DeleteJob? || call.WaitAbsent? { DeleteTracks(w, s, tid, a); }
      else if call.EnsureNamespace? { EnsureNamespaceTracks(w, s, tid, a); }
      else if call.AwaitGang? { AwaitGangTracks(w, s, tid, a); }
      else { CreateTracks(w, s, tid, a); }
    case MergeFail(_, _, _) => MergeFailTracks(w, s, tid, a);
    case FailClear(_) => FailClearTracks(w, s, tid, a);
    case MergeOk(_, _) => MergeOkTracks(w, s, tid, a);
    case OkClear(_, _) => OkClearTracks(w, s, tid, a);
    case OkSave(_) => OkSaveTracks(w, s, tid, a);
    case Finish(_) => FinishTracks(w, s, tid, a);
    case TailClear(_) => TailTracks(w, s, tid, a);
    case TailSave(_) => TailTracks(w, s, tid, a);
  }

  lemma TearingTracks(w: Wiring, s: Sys, tid: nat, a: Answer)
    requires ProveLast(w) && Inv(w, s) && Tracked(w, s) && tid in s.threads && s.threads[tid].Tearing?
    ensures var t := s.threads[tid]; Tracked(w, Teardown(s, tid, t.epoch, t.runId, t.rpc, a))
  {
    match s.threads[tid].rpc
    case Record(_, _) => RecordTracks(w, s, tid, a);
    case Review(_) => ReviewTracks(w, s, tid, a);
    case ResetFinish(_) => ResetFinishTracks(w, s, tid, a);
    case ResetTailClear(_, _) => TornClearTracks(w, s, tid, a);
    case ResetTailSave(_, _) => TornSaveTracks(w, s, tid, a);
    case DeleteRecord => TornReleaseTracks(w, s, tid, a);
    case Release => TornReleaseTracks(w, s, tid, a);
    case _ => EnsureTracks(w, s, tid, a);
  }

  lemma MoveTracks(w: Wiring, s: Sys, tid: nat, a: Answer)
    requires ProveLast(w) && Inv(w, s) && Tracked(w, s) && tid in s.threads
    ensures Tracked(w, Move(w, s, tid, a))
  {
    match s.threads[tid]
    case Launching(_, _, _) => LaunchTracks(w, s, tid, a);
    case Undoing(_, how, _) =>
      if how.ByStart? { UndoStartTracks(w, s, tid, a); }
      else if how.ByRetry? { UndoRetryTracks(w, s, tid, a); }
      else { UndoResetTracks(w, s, tid, a); }
    case Closing(_) => ClosingTracks(w, s, tid, a);
    case Executing(_, _) => ExecuteTracks(w, s, tid, a);
    case Tearing(_, _, _) => TearingTracks(w, s, tid, a);
    case Deciding(_, _, _, dpc) =>
      if dpc.DecideSaving? { DecideSaveTracks(w, s, tid, a); } else { DecidedTracks(w, s, tid, a); }
    case Discarding(_, _, _) => DiscardingTracks(w, s, tid, a);
    case Stopping(_, _, spc) =>
      if spc.StopEnsure? { StopEnsureTracks(w, s, tid, a); }
      else if spc.StopRecording? || spc.StopFinish? { StopRecordTracks(w, s, tid, a); }
      else { StopTailTracks(w, s, tid, a); }
    case Cancelling(_) => CancellingTracks(w, s, tid, a);
  }

  lemma CancellingTracks(w: Wiring, s: Sys, tid: nat, a: Answer)
    requires Tracked(w, s) && tid in s.threads && s.threads[tid].Cancelling?
    ensures Tracked(w, Move(w, s, tid, a))
  {
    OthersTrack(w, s, Move(w, s, tid, a), tid);
  }

  /** A workload that goes away by itself is held no longer. */
  lemma VanishTracks(w: Wiring, s: Sys, runId: string)
    requires Tracked(w, s)
    ensures Tracked(w, Next(w, s, Vanish(runId)))
  {
    assert Held(Next(w, s, Vanish(runId))) == Held(s) - {runId};
  }

  lemma NextTracks(w: Wiring, s: Sys, ev: Event)
    requires ProveLast(w) && Inv(w, s) && Tracked(w, s)
    ensures Tracked(w, Next(w, s, ev))
  {
    hide Inv, Tracked, Move, Call, Marked;
    match ev
    case Advance(tid, a) => if tid in s.threads { MoveTracks(w, s, tid, a); }
    case CallStart(_, _, _) => LaunchCallTracks(w, s, ev);
    case CallRetry(_, _, _) => LaunchCallTracks(w, s, ev);
    case CallReset(_, _, _, _, _) => LaunchCallTracks(w, s, ev);
    case CallDecide(_, _, _, _) => DecideCallTracks(w, s, ev);
    case CallDiscard(_, _) => DiscardCallTracks(w, s, ev);
    case CallStop(_, _, _) => StopCallTracks(w, s, ev);
    case CallCancel(_) => CancelCallTracks(w, s, ev);
    case Mark(tid, name, index, total) => MarkTracks(w, s, tid, name, index, total);
    case Vanish(runId) => VanishTracks(w, s, runId);
  }

  lemma MarkTracks(w: Wiring, s: Sys, tid: nat, name: string, index: int, total: int)
    requires Tracked(w, s)
    ensures Tracked(w, Marked(w, s, tid, name, index, total))
  {
    assert Held(Marked(w, s, tid, name, index, total)) == Held(s);
  }
}
