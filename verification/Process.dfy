/**
 * The console process around its engine object: the threads, each in the call it is blocked in, and
 * the workloads in the cluster. Performing an event moves one thread, in place, through the engine's
 * own methods, and is exactly the machine's step; so everything proved of the machine's runs is true
 * of the object.
 */
module Processes {
  import opened Wrappers
  import opened Runs
  import opened EngineSpec
  import opened Machine
  import opened Structure
  import opened Engines
  import opened Recovery
  import Safety

  class Process {
    const w: Wiring
    const engine: Engine
    var threads: map<nat, Thread>
    var canceled: set<nat>
    var closed: set<nat>
    var workloads: set<string>
    var panicked: bool
    ghost var h: History

    /** The whole state as a value. */
    ghost function Abs(): Sys
      reads this, engine
    {
      Sys(engine.Abs(), threads, canceled, closed, workloads, panicked, h)
    }

    ghost predicate Valid()
      reads this, engine
    {
      engine.w == w && Inv(w, Abs())
    }

    constructor (e: Engine, found: set<string>, ghost history: History)
      requires Safety.Booted(Sys(e.Abs(), map[], {}, {}, found, false, history))
      ensures Valid() && Safety.Booted(Abs()) && engine == e && w == e.w && workloads == found && h == history
      ensures engine.Abs() == e.Abs()
    {
      w, engine := e.w, e;
      threads, canceled, closed, workloads, panicked, h := map[], {}, {}, found, false, history;
      new;
      Safety.Always(w, Abs(), []);
    }

    method At(tid: nat, t: Thread)
      modifies `threads
      ensures threads == old(threads)[tid := t]
    {
      threads := threads[tid := t];
    }

    /** No goroutine of the current epoch is without a run. */
    predicate NilSafe(epoch: nat)
      reads engine
    {
      engine.epoch == epoch ==> engine.current.Some?
    }

    ghost method Durable(r: Run, ok: bool)
      modifies `h
      ensures h == if ok then old(h).(durable := old(h).durable + Keys(r)) else old(h)
    {
      if ok { h := h.(durable := h.durable + Keys(r)); }
    }

    // ---- the execute goroutine ----

    method LoopHead(tid: nat, a: Answer)
      requires engine.w == w && tid in threads && threads[tid].Executing? && threads[tid].pc.Top?
      requires NilSafe(threads[tid].epoch)
      modifies this, engine
      ensures Abs() == Execute(w, old(Abs()), tid, old(threads)[tid].epoch, old(threads)[tid].pc, a)
    {
      var epoch := threads[tid].epoch;
      var r := engine.NextIndex(epoch);
      match r
      case Did(i) =>
        At(tid, Executing(epoch, if i >= |w.steps| then Machine.Finish(TerminalState(w.steps)) else Await(i)));
      case No(_) => assert false;
      case Gone => At(tid, Closing(epoch));
    }

    method Gate(tid: nat, a: Answer)
      requires engine.w == w && tid in threads && threads[tid].Executing? && threads[tid].pc.Await?
      requires NilSafe(threads[tid].epoch)
      modifies this, engine
      ensures Abs() == Execute(w, old(Abs()), tid, old(threads)[tid].epoch, old(threads)[tid].pc, a)
    {
      var epoch := threads[tid].epoch;
      var i := threads[tid].pc.i;
      if i < 0 || i >= |w.steps| { panicked := true; return; }
      var r := engine.AwaitDecisions(epoch, w.steps[i], a.now);
      match r
      case Did(Open) => At(tid, Executing(epoch, Begin(i)));
      case Did(Parked(channel, snapshot)) => At(tid, Executing(epoch, AwaitSave(i, channel, snapshot)));
      case No(_) => assert false;
      case Gone => At(tid, Closing(epoch));
    }

    method GateSaved(tid: nat, a: Answer)
      requires engine.w == w && tid in threads && threads[tid].Executing? && threads[tid].pc.AwaitSave?
      modifies this, engine
      ensures Abs() == Execute(w, old(Abs()), tid, old(threads)[tid].epoch, old(threads)[tid].pc, a)
    {
      var epoch := threads[tid].epoch;
      var pc := threads[tid].pc;
      Durable(pc.snapshot, a.ok);
      At(tid, Executing(epoch, Park(pc.i, pc.channel)));
    }

    /** A wake-up, or the context's end. */
    method Parked(tid: nat, a: Answer)
      requires engine.w == w && tid in threads && threads[tid].Executing? && threads[tid].pc.Park?
      modifies this, engine
      ensures Abs() == Execute(w, old(Abs()), tid, old(threads)[tid].epoch, old(threads)[tid].pc, a)
    {
      var epoch := threads[tid].epoch;
      var i, channel := threads[tid].pc.i, threads[tid].pc.channel;
      if a.ok {
        if channel in engine.full {
          engine.Receive(channel);
          At(tid, Executing(epoch, Await(i)));
        }
      } else if epoch in canceled {
        At(tid, Executing(epoch, Machine.Finish(Failed)));
      }
    }

    method Begins(tid: nat, a: Answer)
      requires engine.w == w && tid in threads && threads[tid].Executing? && threads[tid].pc.Begin?
      requires NilSafe(threads[tid].epoch)
      modifies this, engine
      ensures Abs() == Execute(w, old(Abs()), tid, old(threads)[tid].epoch, old(threads)[tid].pc, a)
    {
      var epoch := threads[tid].epoch;
      var i := threads[tid].pc.i;
      if i < 0 || i >= |w.steps| { panicked := true; return; }
      var r := engine.BeginStep(epoch, w.steps[i], a.now);
      match r
      case Did(scratch) => At(tid, Executing(epoch, BeginSave(i, scratch)));
      case No(_) => assert false;
      case Gone => At(tid, Executing(epoch, Top));
    }

    method BeginSaved(tid: nat, a: Answer)
      requires engine.w == w && tid in threads && threads[tid].Executing? && threads[tid].pc.BeginSave?
      modifies this, engine
      ensures Abs() == Execute(w, old(Abs()), tid, old(threads)[tid].epoch, old(threads)[tid].pc, a)
    {
      var epoch := threads[tid].epoch;
      var i, scratch := threads[tid].pc.i, threads[tid].pc.scratch;
      if i < 0 || i >= |w.steps| { panicked := true; return; }
      Durable(scratch, a.ok);
      At(tid, Executing(epoch, Stepping(i, scratch, if w.steps[i].phase == Prove then EnsureNamespace else Whole)));
    }

    method MergesFailure(tid: nat, a: Answer)
      requires engine.w == w && tid in threads && threads[tid].Executing? && threads[tid].pc.MergeFail?
      requires NilSafe(threads[tid].epoch)
      modifies this, engine
      ensures Abs() == Execute(w, old(Abs()), tid, old(threads)[tid].epoch, old(threads)[tid].pc, a)
    {
      var epoch := threads[tid].epoch;
      var pc := threads[tid].pc;
      var r := engine.MergeStepFailure(epoch, pc.scratch, pc.why);
      At(tid, Executing(epoch, FailClear(pc.i)));
    }

    method ClearsAfterFailure(tid: nat, a: Answer)
      requires engine.w == w && tid in threads && threads[tid].Executing? && threads[tid].pc.FailClear?
      modifies this, engine
      ensures Abs() == Execute(w, old(Abs()), tid, old(threads)[tid].epoch, old(threads)[tid].pc, a)
    {
      var epoch := threads[tid].epoch;
      var i := threads[tid].pc.i;
      if 0 <= i < |w.steps| && w.steps[i].phase == Apply { engine.ClearActiveAction(epoch); }
      At(tid, Executing(epoch, Machine.Finish(Failed)));
    }

    method MergesSuccess(tid: nat, a: Answer)
      requires engine.w == w && tid in threads && threads[tid].Executing? && threads[tid].pc.MergeOk?
      requires NilSafe(threads[tid].epoch)
      modifies this, engine
      ensures Abs() == Execute(w, old(Abs()), tid, old(threads)[tid].epoch, old(threads)[tid].pc, a)
    {
      var epoch := threads[tid].epoch;
      var pc := threads[tid].pc;
      var r := engine.MergeStepSuccess(epoch, pc.scratch, pc.i, a.now);
      match r
      case Did(merged) =>
        h := Completed(w, h, merged, pc.i);
        At(tid, Executing(epoch, OkClear(pc.i, merged)));
      case No(_) => assert false;
      case Gone => At(tid, Executing(epoch, Top));
    }

    method ClearsAfterSuccess(tid: nat, a: Answer)
      requires engine.w == w && tid in threads && threads[tid].Executing? && threads[tid].pc.OkClear?
      modifies this, engine
      ensures Abs() == Execute(w, old(Abs()), tid, old(threads)[tid].epoch, old(threads)[tid].pc, a)
    {
      var epoch := threads[tid].epoch;
      var i, merged := threads[tid].pc.i, threads[tid].pc.merged;
      if 0 <= i < |w.steps| && w.steps[i].phase == Apply { engine.ClearActiveAction(epoch); }
      At(tid, Executing(epoch, OkSave(merged)));
    }

    method SuccessSaved(tid: nat, a: Answer)
      requires engine.w == w && tid in threads && threads[tid].Executing? && threads[tid].pc.OkSave?
      modifies this, engine
      ensures Abs() == Execute(w, old(Abs()), tid, old(threads)[tid].epoch, old(threads)[tid].pc, a)
    {
      var epoch := threads[tid].epoch;
      Durable(threads[tid].pc.merged, a.ok);
      At(tid, Executing(epoch, Top));
    }

    method Finishes(tid: nat, a: Answer)
      requires engine.w == w && tid in threads && threads[tid].Executing? && threads[tid].pc.Finish?
      modifies this, engine
      ensures Abs() == Execute(w, old(Abs()), tid, old(threads)[tid].epoch, old(threads)[tid].pc, a)
    {
      var epoch := threads[tid].epoch;
      var r := engine.Finish(epoch, threads[tid].pc.state, a.msg, a.now);
      match r
      case Did(snapshot) => At(tid, Executing(epoch, TailClear(snapshot)));
      case No(_) => assert false;
      case Gone => At(tid, Closing(epoch));
    }

    method FinishClears(tid: nat, a: Answer)
      requires engine.w == w && tid in threads && threads[tid].Executing? && threads[tid].pc.TailClear?
      modifies this, engine
      ensures Abs() == Execute(w, old(Abs()), tid, old(threads)[tid].epoch, old(threads)[tid].pc, a)
    {
      var epoch := threads[tid].epoch;
      var snapshot := threads[tid].pc.snapshot;
      engine.ClearActiveAction(epoch);
      At(tid, Executing(epoch, TailSave(snapshot)));
    }

    method FinishSaved(tid: nat, a: Answer)
      requires engine.w == w && tid in threads && threads[tid].Executing? && threads[tid].pc.TailSave?
      modifies this, engine
      ensures Abs() == Execute(w, old(Abs()), tid, old(threads)[tid].epoch, old(threads)[tid].pc, a)
    {
      var epoch := threads[tid].epoch;
      Durable(threads[tid].pc.snapshot, a.ok);
      At(tid, Closing(epoch));
    }

    /** One call of a running step: Prove's five, or any other step as a whole. */
    method StepCalls(tid: nat, a: Answer)
      requires engine.w == w && tid in threads && threads[tid].Executing? && threads[tid].pc.Stepping?
      modifies this
      ensures Abs() == Execute(w, old(Abs()), tid, old(threads)[tid].epoch, old(threads)[tid].pc, a)
    {
      var epoch, i, scratch := threads[tid].epoch, threads[tid].pc.i, threads[tid].pc.scratch;
      match threads[tid].pc.call
      case Whole =>
        if 0 <= i < |w.steps| && StepWrites(w.steps[i], scratch, a.scratch, a.ok) {
          At(tid, Executing(epoch, if a.ok then MergeOk(i, a.scratch) else MergeFail(i, a.scratch, Plain)));
        }
      case EnsureNamespace =>
        At(tid, Executing(epoch, if a.ok then Stepping(i, scratch, CreateJob) else MergeFail(i, scratch, Plain)));
      case CreateJob =>
        if a.landed {
          workloads := workloads + {scratch.id};
          h := h.(lost := h.lost - {scratch.id});
        }
        At(tid, Executing(epoch, Stepping(i, scratch, if a.ok then AwaitGang else DeleteJob)));
      case AwaitGang =>
        At(tid, Executing(epoch, if a.ok then MergeOk(i, scratch.(workload := WorkloadOf(scratch.id)))
                                 else Stepping(i, scratch, DeleteJob)));
      case DeleteJob =>
        At(tid, Executing(epoch,
          if a.ok then Stepping(i, scratch, WaitAbsent) else MergeFail(i, scratch, Unconfirmed)));
      case WaitAbsent =>
        if !a.ok || scratch.id !in workloads {
          At(tid, Executing(epoch, MergeFail(i, scratch, if a.ok then Confirmed else Unconfirmed)));
        }
    }

    // ---- windows: the Save of Start, Retry and Reset ----

    method Launched(tid: nat, a: Answer)
      requires engine.w == w && tid in threads && threads[tid].Launching?
      modifies this
      ensures Abs() == Window(w, old(Abs()), tid, old(threads)[tid], a)
    {
      var t := threads[tid];
      if !a.ok {
        At(tid, Undoing(t.epoch, t.how, t.snapshot.id));
        return;
      }
      Durable(t.snapshot, true);
      At(tid, if t.how.ByReset? then Tearing(t.epoch, t.snapshot.id, Look) else Executing(t.epoch, Top));
    }

    method RollsBack(tid: nat, a: Answer)
      requires engine.w == w && tid in threads && threads[tid].Undoing?
      modifies this, engine
      ensures Abs() == Window(w, old(Abs()), tid, old(threads)[tid], a)
    {
      var t := threads[tid];
      match t.how
      case ByStart(previous) =>
        engine.UndoStart(t.epoch, t.runId, previous);
        h := h.(slot := if engine.current.Some? then engine.current.value.id else h.slot);
        At(tid, Closing(t.epoch));
      case ByRetry(prev) =>
        engine.UndoRetry(t.epoch, t.runId, prev, a.now);
        At(tid, Closing(t.epoch));
      case ByReset =>
        h := if t.runId in workloads && Holds(engine.Abs(), t.runId) && !engine.current.value.cleanupUnconfirmed
             then h.(lost := h.lost + {t.runId}) else h;
        engine.UndoReset(t.epoch, t.runId, a.now);
        At(tid, Closing(t.epoch));
    }

    /** The deferred close: closing a channel twice would panic. */
    method Closes(tid: nat, a: Answer)
      requires engine.w == w && tid in threads && threads[tid].Closing?
      modifies this
      ensures Abs() == Window(w, old(Abs()), tid, old(threads)[tid], a)
    {
      var epoch := threads[tid].epoch;
      if epoch in closed { panicked := true; return; }
      closed := closed + {epoch};
      threads := threads - {tid};
    }

    // ---- the reset goroutine ----

    /** The goroutine gives up, or is through: its context ends, then its channel. */
    method Quits(tid: nat, epoch: nat)
      modifies `threads, `canceled
      ensures threads == old(threads)[tid := Closing(epoch)] && canceled == old(canceled) + {epoch}
    {
      canceled := canceled + {epoch};
      At(tid, Closing(epoch));
    }

    method LooksUp(tid: nat, a: Answer)
      requires engine.w == w && tid in threads && threads[tid].Tearing? &&
               (threads[tid].rpc.Look? || threads[tid].rpc.Review?)
      modifies this
      ensures var t := old(threads)[tid]; Abs() == Teardown(old(Abs()), tid, t.epoch, t.runId, t.rpc, a)
    {
      var epoch, runId := threads[tid].epoch, threads[tid].runId;
      var run := engine.Snapshot(epoch, runId);
      if run.None? {
        Quits(tid, epoch);
      } else if threads[tid].rpc.Look? {
        At(tid, Tearing(epoch, runId, Ensure(run.value)));
      } else {
        At(tid, Tearing(epoch, runId, ResetFinish(threads[tid].rpc.incomplete)));
      }
    }

    method EnsuresAbsent(tid: nat, a: Answer)
      requires engine.w == w && tid in threads && threads[tid].Tearing? && threads[tid].rpc.Ensure?
      modifies this
      ensures var t := old(threads)[tid]; Abs() == Teardown(old(Abs()), tid, t.epoch, t.runId, t.rpc, a)
    {
      var epoch, runId := threads[tid].epoch, threads[tid].runId;
      if !a.ok {
        At(tid, Tearing(epoch, runId, Record(Residue(true, []), false)));
      } else if runId !in workloads {
        At(tid, Tearing(epoch, runId, Uninstall(threads[tid].rpc.run)));
      }
    }

    method Uninstalls(tid: nat, a: Answer)
      requires engine.w == w && tid in threads && threads[tid].Tearing? && threads[tid].rpc.Uninstall?
      modifies this
      ensures var t := old(threads)[tid]; Abs() == Teardown(old(Abs()), tid, t.epoch, t.runId, t.rpc, a)
    {
      var epoch, runId := threads[tid].epoch, threads[tid].runId;
      var failed := false;
      for i := 0 to |a.items|
        invariant Abs() == old(Abs()) && (failed <==> exists j :: 0 <= j < i && a.items[j].err != "")
      {
        if a.items[i].err != "" { failed := true; }
      }
      At(tid, Tearing(epoch, runId, Record(Residue(epoch in canceled || failed, a.items), true)));
    }

    method Records(tid: nat, a: Answer)
      requires engine.w == w && tid in threads && threads[tid].Tearing? && threads[tid].rpc.Record?
      modifies this, engine
      ensures var t := old(threads)[tid]; Abs() == Teardown(old(Abs()), tid, t.epoch, t.runId, t.rpc, a)
    {
      var epoch, runId := threads[tid].epoch, threads[tid].runId;
      var residue, reached := threads[tid].rpc.residue, threads[tid].rpc.reached;
      engine.RecordTeardown(epoch, runId, residue, a.now);
      At(tid, Tearing(epoch, runId, if reached then Review(residue.incomplete) else ResetFinish(true)));
    }

    method ResetFinishes(tid: nat, a: Answer)
      requires engine.w == w && tid in threads && threads[tid].Tearing? && threads[tid].rpc.ResetFinish?
      modifies this, engine
      ensures var t := old(threads)[tid]; Abs() == Teardown(old(Abs()), tid, t.epoch, t.runId, t.rpc, a)
    {
      var epoch, runId := threads[tid].epoch, threads[tid].runId;
      var incomplete := threads[tid].rpc.incomplete;
      var r := engine.Finish(epoch, if incomplete then Failed else Done, a.msg, a.now);
      match r
      case Did(snapshot) => At(tid, Tearing(epoch, runId, ResetTailClear(snapshot, !incomplete)));
      case No(_) => assert false;
      case Gone => if incomplete { Quits(tid, epoch); } else { At(tid, Tearing(epoch, runId, DeleteRecord)); }
    }

    method ResetTail(tid: nat, a: Answer)
      requires engine.w == w && tid in threads && threads[tid].Tearing? &&
               (threads[tid].rpc.ResetTailClear? || threads[tid].rpc.ResetTailSave?)
      modifies this, engine
      ensures var t := old(threads)[tid]; Abs() == Teardown(old(Abs()), tid, t.epoch, t.runId, t.rpc, a)
    {
      var epoch, runId := threads[tid].epoch, threads[tid].runId;
      var snapshot, clean := threads[tid].rpc.snapshot, threads[tid].rpc.clean;
      if threads[tid].rpc.ResetTailClear? {
        engine.ClearActiveAction(epoch);
        At(tid, Tearing(epoch, runId, ResetTailSave(snapshot, clean)));
        return;
      }
      Durable(snapshot, a.ok);
      if clean { At(tid, Tearing(epoch, runId, DeleteRecord)); } else { Quits(tid, epoch); }
    }

    method ResetReleases(tid: nat, a: Answer)
      requires engine.w == w && tid in threads && threads[tid].Tearing? &&
               (threads[tid].rpc.DeleteRecord? || threads[tid].rpc.Release?)
      modifies this, engine
      ensures var t := old(threads)[tid]; Abs() == Teardown(old(Abs()), tid, t.epoch, t.runId, t.rpc, a)
    {
      var epoch, runId := threads[tid].epoch, threads[tid].runId;
      if threads[tid].rpc.DeleteRecord? {
        At(tid, Tearing(epoch, runId, Release));
      } else {
        engine.ReleaseGate(epoch);
        Quits(tid, epoch);
      }
    }

    // ---- Decide, Discard, Stop and CancelAndWait past their first hold ----

    method Decides(tid: nat, a: Answer)
      requires engine.w == w && tid in threads && threads[tid].Deciding?
      modifies this, engine
      ensures var t := old(threads)[tid]; Abs() == Decision(old(Abs()), tid, t.epoch, t.runId, t.prev, t.dpc, a)
    {
      var t := threads[tid];
      match t.dpc
      case DecideSaving(snapshot) =>
        Durable(snapshot, a.ok);
        At(tid, Deciding(t.epoch, t.runId, t.prev, if a.ok then DecideSignalling else DecideUndoing));
      case DecideUndoing =>
        engine.UndoDecide(t.epoch, t.runId, t.prev);
        threads := threads - {tid};
      case DecideSignalling =>
        engine.Signal(t.epoch, t.runId);
        threads := threads - {tid};
    }

    method Discards(tid: nat, a: Answer)
      requires engine.w == w && tid in threads && threads[tid].Discarding?
      modifies this, engine
      ensures Abs() == Move(w, old(Abs()), tid, a)
    {
      var t := threads[tid];
      if t.failed {
        engine.UndoDiscard(t.epoch, t.gone);
        threads := threads - {tid};
      } else if a.ok {
        threads := threads - {tid};
      } else {
        At(tid, Discarding(t.epoch, t.gone, true));
      }
    }

    method Stops(tid: nat, a: Answer)
      requires engine.w == w && tid in threads && threads[tid].Stopping?
      modifies this, engine
      ensures var t := old(threads)[tid]; Abs() == Machine.Stop(old(Abs()), tid, t.epoch, t.runId, t.spc, a)
    {
      var epoch, runId := threads[tid].epoch, threads[tid].runId;
      match threads[tid].spc
      case StopEnsure =>
        if !a.ok { threads := threads - {tid}; }
        else if runId !in workloads { At(tid, Stopping(epoch, runId, StopRecording)); }
      case StopRecording =>
        engine.RecordStop(epoch, runId);
        At(tid, Stopping(epoch, runId, StopFinish));
      case StopFinish =>
        var r := engine.Finish(epoch, Done, "", a.now);
        At(tid, Stopping(epoch, runId, if r.Did? then StopTailClear(r.value) else StopRelease));
      case StopTailClear(snapshot) =>
        engine.ClearActiveAction(epoch);
        At(tid, Stopping(epoch, runId, StopTailSave(snapshot)));
      case StopTailSave(snapshot) =>
        Durable(snapshot, a.ok);
        At(tid, Stopping(epoch, runId, StopRelease));
      case StopRelease =>
        engine.OpenGate();
        threads := threads - {tid};
    }

    method Waits(tid: nat, a: Answer)
      requires engine.w == w && tid in threads && threads[tid].Cancelling?
      modifies this
      ensures Abs() == Move(w, old(Abs()), tid, a)
    {
      var epoch := threads[tid].epoch;
      if !a.ok {
        threads := threads - {tid};
      } else if epoch in closed {
        h := h.(released := true);
        threads := threads - {tid};
      }
    }

    // ---- API calls: their first holds ----

    method Start(tid: nat, id: string, now: nat)
      requires engine.w == w && id !in h.used
      modifies this, engine
      ensures Abs() == Call(w, old(Abs()), CallStart(tid, id, now))
    {
      if tid in threads { return; }
      var r := engine.Start(id, now);
      match r
      case Did(previous) =>
        h := h.(ownerOf := h.ownerOf[engine.epoch := tid], slot := id, used := h.used + {id},
                completed := h.completed[id := []], base := h.base[id := 0]);
        At(tid, Launching(engine.epoch, ByStart(previous), engine.current.value));
      case No(_) =>
      case Gone => assert false;
    }

    method Retry(tid: nat, runId: string, now: nat)
      requires engine.w == w
      modifies this, engine
      ensures Abs() == Call(w, old(Abs()), CallRetry(tid, runId, now))
    {
      if tid in threads { return; }
      var r := engine.Retry(runId, now);
      match r
      case Did(prev) =>
        h := h.(ownerOf := h.ownerOf[engine.epoch := tid]);
        At(tid, Launching(engine.epoch, ByRetry(prev), engine.current.value));
      case No(_) =>
      case Gone => assert false;
    }

    method Reset(tid: nat, runId: string, proverReady: bool, hasTeardown: bool, now: nat)
      requires engine.w == w
      modifies this, engine
      ensures Abs() == Call(w, old(Abs()), CallReset(tid, runId, proverReady, hasTeardown, now))
    {
      if tid in threads { return; }
      var r := engine.Reset(runId, proverReady, hasTeardown, now);
      match r
      case Did(_) =>
        h := h.(ownerOf := h.ownerOf[engine.epoch := tid]);
        At(tid, Launching(engine.epoch, ByReset, engine.current.value));
      case No(_) =>
      case Gone => assert false;
    }

    method Decide(tid: nat, runId: string, decisions: map<string, string>, now: nat)
      requires engine.w == w
      modifies this, engine
      ensures Abs() == Call(w, old(Abs()), CallDecide(tid, runId, decisions, now))
    {
      if tid in threads { return; }
      var r := engine.Decide(runId, decisions, now);
      match r
      case Did(prev) =>
        h := h.(decider := tid, accepted := h.accepted + set k | k in decisions :: (runId, k));
        At(tid, Deciding(engine.epoch, runId, prev, DecideSaving(engine.current.value)));
      case No(_) =>
      case Gone => assert false;
    }

    method Discard(tid: nat, runId: string)
      requires engine.w == w
      modifies this, engine
      ensures Abs() == Call(w, old(Abs()), CallDiscard(tid, runId))
    {
      if tid in threads { return; }
      var r := engine.Discard(runId);
      match r
      case Did(gone) =>
        h := h.(discarder := tid);
        At(tid, Discarding(engine.epoch, gone, false));
      case No(_) =>
      case Gone => assert false;
    }

    method Stop(tid: nat, runId: string, proverReady: bool)
      requires engine.w == w
      modifies this
      ensures Abs() == Call(w, old(Abs()), CallStop(tid, runId, proverReady))
    {
      if tid in threads { return; }
      var r := engine.Stop(runId, proverReady);
      match r
      case Did(epoch) => At(tid, Stopping(epoch, runId, StopEnsure));
      case No(_) =>
      case Gone => assert false;
    }

    method CancelAndWait(tid: nat)
      requires engine.w == w
      modifies this, engine
      ensures Abs() == Call(w, old(Abs()), CallCancel(tid))
    {
      if tid in threads { return; }
      var waitOn := engine.Drain();
      match waitOn
      case None => h := h.(released := true);
      case Some(epoch) =>
        canceled := canceled + {epoch};
        At(tid, Cancelling(epoch));
    }

    /** A component header the running Apply printed. */
    method Marks(tid: nat, name: string, index: int, total: int)
      requires engine.w == w
      modifies this, engine
      ensures Abs() == Marked(w, old(Abs()), tid, name, index, total)
    {
      if tid in threads && threads[tid].Executing? && threads[tid].pc.Stepping? {
        var i := threads[tid].pc.i;
        if 0 <= i < |w.steps| && w.steps[i].phase == Apply && name != "" {
          engine.SetActiveAction(threads[tid].epoch, name, index, total);
        }
      }
    }

    // ---- any event, any run ----

    method Executes(tid: nat, a: Answer)
      requires engine.w == w && tid in threads && threads[tid].Executing?
      requires Driver(threads[tid]) ==> NilSafe(threads[tid].epoch)
      modifies this, engine
      ensures Abs() == Execute(w, old(Abs()), tid, old(threads)[tid].epoch, old(threads)[tid].pc, a)
    {
      hide Execute;
      match threads[tid].pc
      case Top => LoopHead(tid, a);
      case Await(_) => Gate(tid, a);
      case AwaitSave(_, _, _) => GateSaved(tid, a);
      case Park(_, _) => Parked(tid, a);
      case Begin(_) => Begins(tid, a);
      case BeginSave(_, _) => BeginSaved(tid, a);
      case Stepping(_, _, _) => StepCalls(tid, a);
      case MergeFail(_, _, _) => MergesFailure(tid, a);
      case FailClear(_) => ClearsAfterFailure(tid, a);
      case MergeOk(_, _) => MergesSuccess(tid, a);
      case OkClear(_, _) => ClearsAfterSuccess(tid, a);
      case OkSave(_) => SuccessSaved(tid, a);
      case Finish(_) => Finishes(tid, a);
      case TailClear(_) => FinishClears(tid, a);
      case TailSave(_) => FinishSaved(tid, a);
    }

    method Tears(tid: nat, a: Answer)
      requires engine.w == w && tid in threads && threads[tid].Tearing?
      modifies this, engine
      ensures var t := old(threads)[tid]; Abs() == Teardown(old(Abs()), tid, t.epoch, t.runId, t.rpc, a)
    {
      hide Teardown;
      match threads[tid].rpc
      case Look => LooksUp(tid, a);
      case Ensure(_) => EnsuresAbsent(tid, a);
      case Uninstall(_) => Uninstalls(tid, a);
      case Record(_, _) => Records(tid, a);
      case Review(_) => LooksUp(tid, a);
      case ResetFinish(_) => ResetFinishes(tid, a);
      case ResetTailClear(_, _) => ResetTail(tid, a);
      case ResetTailSave(_, _) => ResetTail(tid, a);
      case DeleteRecord => ResetReleases(tid, a);
      case Release => ResetReleases(tid, a);
    }

    method Advances(tid: nat, a: Answer)
      requires engine.w == w && tid in threads
      requires threads[tid].Executing? && Driver(threads[tid]) ==> NilSafe(threads[tid].epoch)
      modifies this, engine
      ensures Abs() == Move(w, old(Abs()), tid, a)
    {
      hide Execute, Teardown, Machine.Stop, Decision, Window;
      match threads[tid]
      case Launching(_, _, _) => Launched(tid, a);
      case Undoing(_, _, _) => RollsBack(tid, a);
      case Closing(_) => Closes(tid, a);
      case Executing(_, _) => Executes(tid, a);
      case Tearing(_, _, _) => Tears(tid, a);
      case Deciding(_, _, _, _) => Decides(tid, a);
      case Discarding(_, _, _) => Discards(tid, a);
      case Stopping(_, _, _) => Stops(tid, a);
      case Cancelling(_) => Waits(tid, a);
    }

    /**
     * One event, in place. That no goroutine reads a nil run is not checked here: it is what the
     * invariant says of every event before.
     */
    method Perform(ev: Event)
      requires Valid() && (ev.CallStart? ==> ev.id !in h.used)
      modifies this, engine
      ensures Valid() && Abs() == Next(w, old(Abs()), ev)
    {
      NextKeeps(w, Abs(), ev);
      ghost var was := Abs();
      hide Inv, Move, Call, Marked;
      match ev
      case CallStart(tid, id, now) => Start(tid, id, now);
      case CallRetry(tid, runId, now) => Retry(tid, runId, now);
      case CallReset(tid, runId, proverReady, hasTeardown, now) => Reset(tid, runId, proverReady, hasTeardown, now);
      case CallDecide(tid, runId, decisions, now) => Decide(tid, runId, decisions, now);
      case CallDiscard(tid, runId) => Discard(tid, runId);
      case CallStop(tid, runId, proverReady) => Stop(tid, runId, proverReady);
      case CallCancel(tid) => CancelAndWait(tid);
      case Advance(tid, a) =>
        if tid in threads {
          NeverNil(w, was, tid);
          Advances(tid, a);
        }
      case Mark(tid, name, index, total) => Marks(tid, name, index, total);
      case Vanish(runId) =>
        workloads := workloads - {runId};
        h := h.(lost := h.lost - {runId});
    }

    /** Any schedule: the object ends where the machine's run does. */
    method Serve(evs: seq<Event>)
      requires Valid() && FreshIds(h.used, evs)
      modifies this, engine
      ensures Valid() && Abs() == After(w, old(Abs()), evs)
    {
      ghost var was := Abs();
      for i := 0 to |evs|
        invariant Valid() && Abs() == After(w, was, evs[..i]) && FreshIds(h.used, evs[i..])
      {
        assert evs[..i + 1][..i] == evs[..i];
        NextRemembers(w, Abs(), evs[i]);
        Perform(evs[i]);
      }
      assert evs[..|evs|] == evs;
    }
  }

  /** A goroutine that may read the current run finds one. */
  lemma NeverNil(w: Wiring, s: Sys, tid: nat)
    requires Inv(w, s) && tid in s.threads
    ensures Driver(s.threads[tid]) ==> s.threads[tid].epoch == s.eng.epoch && s.eng.current.Some?
  {
    if Driver(s.threads[tid]) { OneDriver(w, s, tid); }
  }

  /** The generator never repeats a run ID. */
  predicate FreshIds(used: set<string>, evs: seq<Event>) {
    && (forall i :: 0 <= i < |evs| && evs[i].CallStart? ==> evs[i].id !in used)
    && (forall i, j :: 0 <= i < j < |evs| && evs[i].CallStart? && evs[j].CallStart? ==> evs[i].id != evs[j].id)
  }
}
