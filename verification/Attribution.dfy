/**
 * The action cursor: whatever goroutines come and go, it names an action only while the run's own
 * goroutine is inside its Apply step.
 */
module Attributions {
  import opened Wrappers
  import opened Runs
  import opened EngineSpec
  import opened Machine
  import opened Structure

  /** From the step being under way to the hold that clears the cursor after it. */
  predicate InApply(w: Wiring, pc: Pc) {
    && (pc.Stepping? || pc.MergeFail? || pc.FailClear? || pc.MergeOk? || pc.OkClear?)
    && 0 <= pc.i < |w.steps| && w.steps[pc.i].phase == Apply
  }

  predicate Applying(w: Wiring, s: Sys) {
    CurrentLive(s) && HasOwner(s) && OwnerOf(s).Executing? && InApply(w, OwnerOf(s).pc)
  }

  predicate CursorOk(w: Wiring, s: Sys) { s.eng.cursor.action != "" ==> Applying(w, s) }

  /** A goroutine moves: it stays inside Apply, or leaves the cursor empty. */
  lemma DriverPoints(w: Wiring, s: Sys, s': Sys, tid: nat)
    requires Inv(w, s) && CursorOk(w, s) && OnlyMoves(s, s', tid) && Driver(s.threads[tid]) && tid in s'.threads
    requires s'.eng.cursor.action != "" ==>
      s'.eng.cursor == s.eng.cursor && CurrentLive(s') && s'.threads[tid].Executing? &&
        (s.threads[tid].Executing? && InApply(w, s.threads[tid].pc) ==> InApply(w, s'.threads[tid].pc))
    ensures CursorOk(w, s')
  {
    OneDriver(w, s, tid);
  }

  /** Anyone else leaves the driver, the run's liveness and the cursor alone, or clears the cursor. */
  lemma OthersPoint(w: Wiring, s: Sys, s': Sys, tid: nat)
    requires Inv(w, s) && CursorOk(w, s) && tid in s.threads && !Driver(s.threads[tid]) &&
             ThreadsMove(s.threads, s'.threads, tid)
    requires s'.eng.epoch == s.eng.epoch && s'.h.ownerOf == s.h.ownerOf
    requires s'.eng.cursor == s.eng.cursor || s'.eng.cursor.action == ""
    requires CurrentLive(s) ==> CurrentLive(s')
    ensures CursorOk(w, s')
  {
    if s'.eng.cursor.action != "" {
      assert Driver(OwnerOf(s));
      Untouched(s, s', tid, s.h.ownerOf[s.eng.epoch]);
    }
  }

  lemma StepPoints(w: Wiring, s: Sys, tid: nat, a: Answer)
    requires Inv(w, s) && CursorOk(w, s) && tid in s.threads && s.threads[tid].Executing? && s.threads[tid].pc.Stepping?
    ensures CursorOk(w, Execute(w, s, tid, s.threads[tid].epoch, s.threads[tid].pc, a))
  {
    var t := s.threads[tid];
    var s' := Execute(w, s, tid, t.epoch, t.pc, a);
    OneDriver(w, s, tid);
    RunStepShape(w, s, tid, t.epoch, t.pc.i, t.pc.scratch, t.pc.call, a);
    if s' != s {
      DriverPoints(w, s, s', tid);
    }
  }

  /** Outside Apply the cursor is empty, and no hold of execute sets it. */
  lemma OutsidePoints(w: Wiring, s: Sys, tid: nat, a: Answer)
    requires Inv(w, s) && CursorOk(w, s) && tid in s.threads && s.threads[tid].Executing? && Driver(s.threads[tid])
    requires var pc := s.threads[tid].pc;
             pc.Top? || pc.Await? || pc.AwaitSave? || pc.Park? || pc.Begin? || pc.BeginSave? || pc.OkSave? || pc.Finish?
    ensures CursorOk(w, Execute(w, s, tid, s.threads[tid].epoch, s.threads[tid].pc, a))
  {
    OneDriver(w, s, tid);
    assert s.eng.cursor.action == "";
  }

  lemma MergePoints(w: Wiring, s: Sys, tid: nat, a: Answer)
    requires Inv(w, s) && CursorOk(w, s) && tid in s.threads && s.threads[tid].Executing?
    requires var pc := s.threads[tid].pc; pc.MergeFail? || pc.MergeOk?
    ensures CursorOk(w, Execute(w, s, tid, s.threads[tid].epoch, s.threads[tid].pc, a))
  {
    OneDriver(w, s, tid);
    DriverPoints(w, s, Execute(w, s, tid, s.threads[tid].epoch, s.threads[tid].pc, a), tid);
  }

  lemma ClearPoints(w: Wiring, s: Sys, tid: nat, a: Answer)
    requires Inv(w, s) && CursorOk(w, s) && tid in s.threads && s.threads[tid].Executing?
    requires var pc := s.threads[tid].pc; pc.FailClear? || pc.OkClear?
    ensures CursorOk(w, Execute(w, s, tid, s.threads[tid].epoch, s.threads[tid].pc, a))
  {
    OneDriver(w, s, tid);
  }

  lemma TailPoints(w: Wiring, s: Sys, tid: nat, a: Answer)
    requires Inv(w, s) && CursorOk(w, s) && tid in s.threads && s.threads[tid].Executing? && !Driver(s.threads[tid])
    ensures CursorOk(w, Execute(w, s, tid, s.threads[tid].epoch, s.threads[tid].pc, a))
  {
    OthersPoint(w, s, Execute(w, s, tid, s.threads[tid].epoch, s.threads[tid].pc, a), tid);
  }

  lemma WindowPoints(w: Wiring, s: Sys, tid: nat, a: Answer)
    requires Inv(w, s) && CursorOk(w, s) && tid in s.threads
    requires var t := s.threads[tid]; t.Launching? || t.Undoing? || t.Closing?
    ensures CursorOk(w, Window(w, s, tid, s.threads[tid], a))
  {
    if s.threads[tid].Closing? {
      OthersPoint(w, s, Window(w, s, tid, s.threads[tid], a), tid);
    } else {
      OneDriver(w, s, tid);
      assert s.eng.cursor.action == "";
    }
  }

  lemma TearingPoints(w: Wiring, s: Sys, tid: nat, a: Answer)
    requires Inv(w, s) && CursorOk(w, s) && tid in s.threads && s.threads[tid].Tearing? && Driver(s.threads[tid])
    ensures var t := s.threads[tid]; CursorOk(w, Teardown(s, tid, t.epoch, t.runId, t.rpc, a))
  {
    OneDriver(w, s, tid);
    assert s.eng.cursor.action == "";
  }

  lemma TornClearPoints(w: Wiring, s: Sys, tid: nat, a: Answer)
    requires Inv(w, s) && CursorOk(w, s) && tid in s.threads && s.threads[tid].Tearing? &&
             s.threads[tid].rpc.ResetTailClear?
    ensures var t := s.threads[tid]; CursorOk(w, Teardown(s, tid, t.epoch, t.runId, t.rpc, a))
  {
    var t := s.threads[tid];
    OthersPoint(w, s, Teardown(s, tid, t.epoch, t.runId, t.rpc, a), tid);
  }

  lemma TornSavePoints(w: Wiring, s: Sys, tid: nat, a: Answer)
    requires Inv(w, s) && CursorOk(w, s) && tid in s.threads && s.threads[tid].Tearing? &&
             s.threads[tid].rpc.ResetTailSave?
    ensures var t := s.threads[tid]; CursorOk(w, Teardown(s, tid, t.epoch, t.runId, t.rpc, a))
  {
    var t := s.threads[tid];
    OthersPoint(w, s, Teardown(s, tid, t.epoch, t.runId, t.rpc, a), tid);
  }

  lemma TornReleasePoints(w: Wiring, s: Sys, tid: nat, a: Answer)
    requires Inv(w, s) && CursorOk(w, s) && tid in s.threads && s.threads[tid].Tearing? &&
             (s.threads[tid].rpc.DeleteRecord? || s.threads[tid].rpc.Release?)
    ensures var t := s.threads[tid]; CursorOk(w, Teardown(s, tid, t.epoch, t.runId, t.rpc, a))
  {
    var t := s.threads[tid];
    OthersPoint(w, s, Teardown(s, tid, t.epoch, t.runId, t.rpc, a), tid);
  }

  lemma StopRecordPoints(w: Wiring, s: Sys, tid: nat, a: Answer)
    requires Inv(w, s) && CursorOk(w, s) && tid in s.threads && s.threads[tid].Stopping? &&
             (s.threads[tid].spc.StopRecording? || s.threads[tid].spc.StopFinish?)
    ensures var t := s.threads[tid]; CursorOk(w, Stop(s, tid, t.epoch, t.runId, t.spc, a))
  {
    var t := s.threads[tid];
    assert CallOk(ViewOf(w, s), tid, t);
    OthersPoint(w, s, Stop(s, tid, t.epoch, t.runId, t.spc, a), tid);
  }

  lemma StopEnsurePoints(w: Wiring, s: Sys, tid: nat, a: Answer)
    requires Inv(w, s) && CursorOk(w, s) && tid in s.threads && s.threads[tid].Stopping?
    requires var spc := s.threads[tid].spc; spc.StopEnsure? || spc.StopRelease?
    ensures var t := s.threads[tid]; CursorOk(w, Stop(s, tid, t.epoch, t.runId, t.spc, a))
  {
    hide DriverOk, CallOk, InApply;
    var t := s.threads[tid];
    OthersPoint(w, s, Stop(s, tid, t.epoch, t.runId, t.spc, a), tid);
  }

  lemma StopTailPoints(w: Wiring, s: Sys, tid: nat, a: Answer)
    requires Inv(w, s) && CursorOk(w, s) && tid in s.threads && s.threads[tid].Stopping?
    requires var spc := s.threads[tid].spc; spc.StopTailClear? || spc.StopTailSave?
    ensures var t := s.threads[tid]; CursorOk(w, Stop(s, tid, t.epoch, t.runId, t.spc, a))
  {
    hide DriverOk, CallOk, InApply;
    var t := s.threads[tid];
    OthersPoint(w, s, Stop(s, tid, t.epoch, t.runId, t.spc, a), tid);
  }

  lemma DecideUndoPoints(w: Wiring, s: Sys, tid: nat, a: Answer)
    requires Inv(w, s) && CursorOk(w, s) && tid in s.threads
    requires s.threads[tid].Deciding? && s.threads[tid].dpc.DecideUndoing?
    ensures var t := s.threads[tid]; CursorOk(w, Decision(s, tid, t.epoch, t.runId, t.prev, t.dpc, a))
  {
    var t := s.threads[tid];
    assert CallOk(ViewOf(w, s), tid, t);
    hide DriverOk, InApply;
    OthersPoint(w, s, Decision(s, tid, t.epoch, t.runId, t.prev, t.dpc, a), tid);
  }

  lemma DecidingPoints(w: Wiring, s: Sys, tid: nat, a: Answer)
    requires Inv(w, s) && CursorOk(w, s) && tid in s.threads
    requires s.threads[tid].Deciding? && !s.threads[tid].dpc.DecideUndoing?
    ensures var t := s.threads[tid]; CursorOk(w, Decision(s, tid, t.epoch, t.runId, t.prev, t.dpc, a))
  {
    var t := s.threads[tid];
    hide DriverOk, InApply, CallOk;
    OthersPoint(w, s, Decision(s, tid, t.epoch, t.runId, t.prev, t.dpc, a), tid);
  }

  lemma CallsPoint(w: Wiring, s: Sys, tid: nat, a: Answer)
    requires Inv(w, s) && CursorOk(w, s) && tid in s.threads
    requires s.threads[tid].Discarding? || s.threads[tid].Cancelling?
    ensures CursorOk(w, Move(w, s, tid, a))
  {
    assert CallOk(ViewOf(w, s), tid, s.threads[tid]);
    OthersPoint(w, s, Move(w, s, tid, a), tid);
  }

  lemma MovePoints(w: Wiring, s: Sys, tid: nat, a: Answer)
    requires Inv(w, s) && CursorOk(w, s) && tid in s.threads
    ensures CursorOk(w, Move(w, s, tid, a))
  {
    match s.threads[tid]
    case Executing(_, pc) =>
      if pc.Stepping? { StepPoints(w, s, tid, a); }
      else if pc.MergeFail? || pc.MergeOk? { MergePoints(w, s, tid, a); }
      else if pc.FailClear? || pc.OkClear? { ClearPoints(w, s, tid, a); }
      else if Driver(s.threads[tid]) { OutsidePoints(w, s, tid, a); }
      else { TailPoints(w, s, tid, a); }
    case Tearing(_, _, rpc) =>
      if Driver(s.threads[tid]) { TearingPoints(w, s, tid, a); }
      else if rpc.DeleteRecord? || rpc.Release? { TornReleasePoints(w, s, tid, a); }
      else if rpc.ResetTailClear? { TornClearPoints(w, s, tid, a); }
      else { TornSavePoints(w, s, tid, a); }
    case Stopping(_, _, spc) =>
      if spc.StopRecording? || spc.StopFinish? { StopRecordPoints(w, s, tid, a); }
      else if spc.StopEnsure? || spc.StopRelease? { StopEnsurePoints(w, s, tid, a); }
      else { StopTailPoints(w, s, tid, a); }
    case Deciding(_, _, _,
      dpc) => if dpc.DecideUndoing? { DecideUndoPoints(w, s, tid, a); } else { DecidingPoints(w, s, tid, a); }
    case Launching(_, _, _) => WindowPoints(w, s, tid, a);
    case Undoing(_, _, _) => WindowPoints(w, s, tid, a);
    case Closing(_) => WindowPoints(w, s, tid, a);
    case _ => CallsPoint(w, s, tid, a);
  }

  /** A launch finds the cursor empty, and a Decide a run that is parked. */
  lemma CallPoints(w: Wiring, s: Sys, ev: Event)
    requires Inv(w, s) && CursorOk(w, s) && !ev.Advance? && !ev.Mark? && !ev.Vanish?
    ensures CursorOk(w, Call(w, s, ev))
  {
    if s.eng.cursor.action == "" {
      CallKeepsCursor(w, s, ev);
    } else {
      RunningIsBusy(w, s);
      BusyCalls(w, s, ev);
    }
  }

  lemma CallKeepsCursor(w: Wiring, s: Sys, ev: Event)
    requires !ev.Advance? && !ev.Mark? && !ev.Vanish?
    ensures Call(w, s, ev).eng.cursor == s.eng.cursor
  {
  }

  /** While an action is named the run is Running, driven by its own goroutine. */
  lemma RunningIsBusy(w: Wiring, s: Sys)
    requires Inv(w, s) && CursorOk(w, s) && s.eng.cursor.action != ""
    ensures Applying(w, s) && s.eng.current.value.state == Running
  {
    DriverKnows(w, s, s.h.ownerOf[s.eng.epoch]);
  }

  /** Then no call but Stop's, which is refused too, and CancelAndWait's goes through; none touches the driver. */
  lemma BusyCalls(w: Wiring, s: Sys, ev: Event)
    requires Applying(w, s) && s.eng.current.value.state == Running && !ev.Advance? && !ev.Mark? && !ev.Vanish?
    ensures Applying(w, Call(w, s, ev))
  {
    assert ev.CallCancel? || Call(w, s, ev) == s;
  }

  /** A marker only counts from the goroutine that still owns the run, inside its Apply step. */
  lemma MarkPoints(w: Wiring, s: Sys, tid: nat, name: string, index: int, total: int)
    requires Inv(w, s) && CursorOk(w, s)
    ensures CursorOk(w, Marked(w, s, tid, name, index, total))
  {
    if tid in s.threads && s.threads[tid].Executing? && s.threads[tid].pc.Stepping? {
      OneDriver(w, s, tid);
    }
  }

  lemma NextPoints(w: Wiring, s: Sys, ev: Event)
    requires Inv(w, s) && CursorOk(w, s)
    ensures CursorOk(w, Next(w, s, ev))
  {
    match ev
    case Advance(tid, a) => if tid in s.threads { MovePoints(w, s, tid, a); }
    case Mark(tid, name, index, total) => MarkPoints(w, s, tid, name, index, total);
    case Vanish(_) =>
    case _ => CallPoints(w, s, ev);
  }
}
