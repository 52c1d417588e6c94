/**
 * What each call and each hold does, read off the run's own fields: which calls a run's state leaves open,
 * what a refused one is answered, and what an accepted one, or a goroutine's next move, leaves behind it.
 */
module Effects {
  import opened Wrappers
  import opened Runs
  import opened EngineSpec
  import opened Machine
  import opened Structure

  // ---- which calls are open ----

  /** The calls open on the run in place, with every dependency at hand. */
  datatype OpenTo = OpenTo(start: bool, retry: bool, reset: bool, discard: bool, stop: bool)

  function OpenCalls(w: Wiring, e: Eng, id: string): OpenTo {
    OpenTo(StartRefusal(e).None?, RetryRefusal(e, id).None?, ResetRefusal(e, w, id, true, true).None?,
         DiscardRefusal(e, id).None?, StopRefusal(e, id, true).None?)
  }

  /**
   * By the run's state. Only an answer to its question reaches a run that is under way; an Active one can
   * be stopped or reset; of the others Failed alone can be retried, and each guard holds back the calls
   * that would forget what it guards.
   */
  lemma OpenByState(w: Wiring, e: Eng)
    requires !e.draining && e.current.Some?
    ensures var r := e.current.value;
            var mine := w.clusterUID == "" || r.clusterUID == "" || r.clusterUID == w.clusterUID;
            var tearable := mine && |r.components| > 0;
            var torn := !r.residue.incomplete;
            var free := torn && !e.recoveredPending;
            OpenCalls(w, e, r.id) ==
              match r.state
              case Running => OpenTo(false, false, false, false, false)
              case AwaitingDecision => OpenTo(false, false, false, false, false)
              case Resetting => OpenTo(false, false, false, false, false)
              case Active => OpenTo(false, false, tearable, false, true)
              case Failed =>
                var gone := !r.cleanupUnconfirmed; OpenTo(free && gone, torn, tearable, torn && gone, !gone)
              case Done => OpenTo(free, false, tearable, torn, r.workload != Workload("", "", ""))
              case Idle => OpenTo(free, false, tearable, torn, false)
              case UnknownState => OpenTo(free, false, tearable, torn, false)
  {
  }

  /** With no run in place only Start is open, unless a recovered record holds it back. */
  lemma OpenOnNone(w: Wiring, e: Eng, id: string)
    requires !e.draining && e.current.None?
    ensures OpenCalls(w, e, id) == OpenTo(!e.recoveredPending, false, false, false, false)
  {
  }

  /** What a refused call is answered. */
  lemma RefusedWith(w: Wiring, e: Eng, id: string, prover: bool, teardown: bool)
    ensures e.draining ==>
              && StartRefusal(e) == RetryRefusal(e, id) == DiscardRefusal(e, id) == Some(Code.Draining)
              && ResetRefusal(e, w, id, prover, teardown) == StopRefusal(e, id, prover) == Some(Code.Draining)
    ensures !e.draining ==>
              && (StartRefusal(e).Some? ==> StartRefusal(e) == Some(Conflict))
              && (e.current.None? || e.current.value.id != id ==>
                    && RetryRefusal(e, id) == DiscardRefusal(e, id) == Some(NotFound)
                    && ResetRefusal(e, w, id, prover, teardown) == StopRefusal(e, id, prover) == Some(NotFound))
              && (e.current.Some? && e.current.value.id == id ==>
                    var r := e.current.value;
                    && (RetryRefusal(e, id).Some? ==> RetryRefusal(e, id) == Some(Conflict))
                    && (DiscardRefusal(e, id).Some? ==> DiscardRefusal(e, id) == Some(Conflict))
                    && ResetRefusal(e, w, id, prover, teardown) ==
                         (if w.clusterUID != "" && r.clusterUID != "" && w.clusterUID != r.clusterUID
                          then Some(ClusterMismatch)
                          else if !OpenCalls(w, e, id).reset then Some(Conflict)
                          else if !prover || !teardown then Some(Unavailable) else None)
                    && StopRefusal(e, id, prover) ==
                         (if !OpenCalls(w, e, id).stop then Some(Conflict)
                          else if !prover then Some(Unavailable) else None))
  {
  }

  /** An answer is taken exactly if the run named is asking and it is for the keys asked for, no more and no fewer. */
  lemma AnswerTakenExactly(e: Eng, id: string, answers: map<string, string>)
    ensures var no := DecideRefusal(e, id, answers);
            if e.current.None? || e.current.value.id != id then no == Some(NotFound)
            else if e.current.value.state != AwaitingDecision then no == Some(Conflict)
            else if forall k :: k in answers <==> k in e.current.value.pending then no == None
            else no == Some(InvalidRequest)
  {
  }

  // ---- what an accepted call leaves ----

  /** A call is accepted by a thread that is not there yet. */
  predicate Calls(s: Sys, ev: Event) { !ev.Advance? && !ev.Mark? && !ev.Vanish? && ev.tid !in s.threads }

  /** A run just started has nothing but its identity, its cluster and toolchain, and the time. */
  lemma StartLeaves(w: Wiring, s: Sys, ev: Event)
    requires Calls(s, ev) && ev.CallStart? && ev.id !in s.h.used && OpenCalls(w, s.eng, ev.id).start
    ensures var t := Next(w, s, ev);
            && t.eng.current == Some(Run(ev.id, Running, if w.steps == [] then NoPhase else w.steps[0].phase, map[],
                 map[], [], [], Workload("", "", ""), 0, "", false, w.clusterUID, w.toolchain, ev.now, ev.now, [],
                 Ownership([], []), Residue(false, []), Validation("", "", [], ""), AgentNamespace("", "", false)))
            && t.eng.epoch == t.eng.resume == s.eng.epoch + 1 && t.eng.handle == Some(t.eng.epoch)
            && t.eng.full == s.eng.full && t.eng.cursor == s.eng.cursor && !t.eng.recoveredPending && !t.eng.draining
            && t.threads == s.threads[ev.tid := Launching(t.eng.epoch, ByStart(s.eng.current), t.eng.current.value)]
            && t.workloads == s.workloads && t.canceled == s.canceled && t.closed == s.closed
  {
  }

  /** A Retry goes on where the run stood, its error gone and the recovered gate open. */
  lemma RetryLeaves(w: Wiring, s: Sys, ev: Event)
    requires Calls(s, ev) && ev.CallRetry? && OpenCalls(w, s.eng, ev.runId).retry
    ensures var t, r := Next(w, s, ev), s.eng.current.value;
            && t.eng.current == Some(r.(state := Running, err := "", updatedAt := ev.now))
            && t.eng.epoch == t.eng.resume == s.eng.epoch + 1 && t.eng.handle == Some(t.eng.epoch)
            && t.eng.full == s.eng.full && t.eng.cursor == s.eng.cursor && !t.eng.recoveredPending && !t.eng.draining
            && t.threads == s.threads[ev.tid := Launching(t.eng.epoch, ByRetry((r.err, s.eng.recoveredPending)),
                 t.eng.current.value)]
            && t.workloads == s.workloads && t.canceled == s.canceled && t.closed == s.closed
  {
  }

  /** A Reset clears the last teardown's report, and keeps everything it will need for this one. */
  lemma ResetLeaves(w: Wiring, s: Sys, ev: Event)
    requires Calls(s, ev) && ev.CallReset? && ev.proverReady && ev.hasTeardown && OpenCalls(w, s.eng, ev.runId).reset
    ensures var t, r := Next(w, s, ev), s.eng.current.value;
            && t.eng.current == Some(r.(state := Resetting, err := "", residue := Residue(false, []),
                 updatedAt := ev.now))
            && t.eng == s.eng.(current := t.eng.current, epoch := s.eng.epoch + 1, handle := Some(s.eng.epoch + 1))
            && t.threads == s.threads[ev.tid := Launching(t.eng.epoch, ByReset, t.eng.current.value)]
            && t.workloads == s.workloads && t.canceled == s.canceled && t.closed == s.closed
  {
  }

  /** An answer joins the run's decisions, over any it had for the same key, and the run goes on. */
  lemma DecideLeaves(w: Wiring, s: Sys, ev: Event, k: string)
    requires Calls(s, ev) && ev.CallDecide? && DecideRefusal(s.eng, ev.runId, ev.decisions).None?
    ensures var t, r := Next(w, s, ev), s.eng.current.value;
            && t.eng == s.eng.(current := t.eng.current) && t.eng.current.Some?
            && var r' := t.eng.current.value;
               && r' == r.(decisions := r'.decisions, pending := [], state := Running, updatedAt := ev.now)
               && (k in r'.decisions <==> k in r.decisions || k in ev.decisions)
               && (k in ev.decisions ==> r'.decisions[k] == ev.decisions[k])
               && (k in r.decisions && k !in ev.decisions ==> r'.decisions[k] == r.decisions[k])
               && t.threads == s.threads[ev.tid := Deciding(s.eng.epoch, r.id, r, DecideSaving(r'))]
  {
  }

  /** A Discard leaves no run and the gate open; its record is held until the store has forgotten it too. */
  lemma DiscardLeaves(w: Wiring, s: Sys, ev: Event)
    requires Calls(s, ev) && ev.CallDiscard? && OpenCalls(w, s.eng, ev.runId).discard
    ensures var t, r := Next(w, s, ev), s.eng.current.value;
            && t.eng == s.eng.(current := None, recoveredPending := false)
            && t.threads == s.threads[ev.tid := Discarding(s.eng.epoch, (r, s.eng.recoveredPending), false)]
            && t.workloads == s.workloads
  {
  }

  /**
   * Shutting down cancels whatever was launched last and waits for it, or has nothing to wait for; and a
   * goroutine parked at a gate under that epoch then gives up its wait, and fails its run.
   */
  lemma CancelLeaves(w: Wiring, s: Sys, ev: Event, parked: nat, a: Answer)
    requires Calls(s, ev) && ev.CallCancel? && !a.ok
    ensures var t := Next(w, s, ev);
            && t.eng == s.eng.(draining := true) && t.workloads == s.workloads && t.closed == s.closed
            && (s.eng.handle.None? ==> t.h.released && t.threads == s.threads && t.canceled == s.canceled)
            && (s.eng.handle.Some? ==>
                  var h := s.eng.handle.value;
                  && t.threads == s.threads[ev.tid := Cancelling(h)] && t.canceled == s.canceled + {h}
                  && (parked in s.threads && s.threads[parked].Executing? && s.threads[parked].epoch == h &&
                      s.threads[parked].pc.Park? ==>
                        Next(w, t, Advance(parked, a)).threads[parked] == Executing(h, Finish(Failed))))
  {
  }

  /** A refused call, or one by a thread that is there already, changes nothing. */
  lemma RefusedIsNothing(w: Wiring, s: Sys, ev: Event)
    requires !ev.Advance? && !ev.Mark? && !ev.Vanish? && !ev.CallCancel?
    requires ev.tid in s.threads ||
             match ev
             case CallStart(_, id, _) => id in s.h.used || !OpenCalls(w, s.eng, id).start
             case CallRetry(_, id, _) => !OpenCalls(w, s.eng, id).retry
             case CallReset(_, id, p, t, _) => !OpenCalls(w, s.eng, id).reset || !p || !t
             case CallDecide(_, id, answers, _) => DecideRefusal(s.eng, id, answers).Some?
             case CallDiscard(_, id) => !OpenCalls(w, s.eng, id).discard
             case CallStop(_, id, p) => !OpenCalls(w, s.eng, id).stop || !p
    ensures Next(w, s, ev) == s
  {
  }

  // ---- what a goroutine's moves leave ----

  /** A step begun shows its phase and is Running, and works on just that copy. */
  lemma BeginLeaves(w: Wiring, s: Sys, tid: nat, a: Answer)
    requires Inv(w, s) && tid in s.threads && s.threads[tid].Executing? && s.threads[tid].pc.Begin?
    ensures var i, t := s.threads[tid].pc.i, Next(w, s, Advance(tid, a));
            && 0 <= i < |w.steps| && s.eng.current.Some?
            && t.eng.current == Some(s.eng.current.value.(phase := w.steps[i].phase, state := Running,
                 updatedAt := a.now))
            && t.threads[tid] == Executing(s.eng.epoch, BeginSave(i, t.eng.current.value))
  {
    hide Inv;
    DriverKnows(w, s, tid);
  }

  /** A gate asks for exactly what is missing, under the phase of its step; with nothing missing it asks nothing. */
  lemma GateAsks(w: Wiring, s: Sys, tid: nat, a: Answer, k: string)
    requires Inv(w, s) && tid in s.threads && s.threads[tid].Executing? && s.threads[tid].pc.Await?
    ensures var i, t := s.threads[tid].pc.i, Next(w, s, Advance(tid, a));
            && 0 <= i < |w.steps| && s.eng.current.Some? && t.eng.current.Some?
            && var r, r', step := s.eng.current.value, t.eng.current.value, w.steps[i];
               if forall q :: q in step.requires_ ==> q in r.decisions then
                 r' == r && t.threads[tid] == Executing(s.eng.epoch, Begin(i))
               else
                 && r' == r.(pending := r'.pending, state := AwaitingDecision, phase := step.phase, updatedAt := a.now)
                 && (k in r'.pending <==> k in step.requires_ && k !in r.decisions)
                 && t.threads[tid] == Executing(s.eng.epoch, AwaitSave(i, s.eng.resume, r'))
  {
    hide Inv;
    DriverKnows(w, s, tid);
    MissingExact(w.steps[s.threads[tid].pc.i].requires_, s.eng.current.value.decisions);
    if forall q :: q in w.steps[s.threads[tid].pc.i].requires_ ==> q in s.eng.current.value.decisions {
      NoneMissing(w.steps[s.threads[tid].pc.i].requires_, s.eng.current.value.decisions);
    }
  }

  /** With steps left the goroutine goes to the run's next one; with none it ends as the last step asks for. */
  lemma LoopGoesOn(w: Wiring, s: Sys, tid: nat, a: Answer)
    requires Inv(w, s) && tid in s.threads && s.threads[tid].Executing? && s.threads[tid].pc.Top?
    ensures var t := Next(w, s, Advance(tid, a));
            && s.eng.current.Some? && t.eng == s.eng
            && var i := s.eng.current.value.stepIndex;
               t.threads[tid] == Executing(s.eng.epoch,
                 if i < |w.steps| then Await(i)
                 else Finish(if |w.steps| > 0 && w.steps[|w.steps| - 1].leavesRunning then Active else Done))
  {
    hide Inv;
    DriverKnows(w, s, tid);
  }

  /** A run ends in the state, with the message and at the time its goroutine finished it. */
  lemma FinishLeaves(w: Wiring, s: Sys, tid: nat, a: Answer)
    requires Inv(w, s) && tid in s.threads && s.threads[tid].Executing? && s.threads[tid].pc.Finish?
    ensures var t := Next(w, s, Advance(tid, a));
            && s.eng.current.Some?
            && t.eng == s.eng.(current := Some(s.eng.current.value.(state := s.threads[tid].pc.state, err := a.msg,
                 updatedAt := a.now)))
            && t.threads[tid] == Executing(s.eng.epoch, TailClear(t.eng.current.value))
  {
    hide Inv;
    DriverKnows(w, s, tid);
  }

  /** A stopped workload is named on the run, its sticky mark gone; then the run is Done, without an error. */
  lemma StopLeaves(w: Wiring, s: Sys, tid: nat, a: Answer)
    requires tid in s.threads && s.threads[tid].Stopping? && s.threads[tid].epoch == s.eng.epoch
    requires Holds(s.eng, s.threads[tid].runId)
    ensures var t, r, id := Next(w, s, Advance(tid, a)), s.eng.current.value, s.threads[tid].runId;
            && (s.threads[tid].spc.StopRecording? ==>
                  && t.eng == s.eng.(current := Some(r.(workload := Workload("aicrme-prove", "Job", "prove-" + id),
                       cleanupUnconfirmed := false)))
                  && t.threads[tid] == Stopping(s.eng.epoch, id, StopFinish))
            && (s.threads[tid].spc.StopFinish? ==>
                  && t.eng == s.eng.(current := Some(r.(state := Done, err := "", updatedAt := a.now)))
                  && t.threads[tid] == Stopping(s.eng.epoch, id, StopTailClear(t.eng.current.value)))
            && (s.threads[tid].spc.StopRelease? ==> t.eng == s.eng.(recoveredPending := false) && tid !in t.threads)
  {
  }

  /**
   * A teardown's report is complete exactly if it was not canceled and nothing in it failed; it is put on
   * the run, which then ends Failed if it is not, and otherwise Done, its record deleted and the gate open.
   */
  lemma TeardownLeaves(w: Wiring, s: Sys, tid: nat, a: Answer)
    requires Inv(w, s) && tid in s.threads && s.threads[tid].Tearing? && Driver(s.threads[tid])
    ensures var t, rpc, id := Next(w, s, Advance(tid, a)), s.threads[tid].rpc, s.threads[tid].runId;
            && s.eng.current.Some?
            && var r := s.eng.current.value;
               && (rpc.Uninstall? ==>
                     && t.eng == s.eng && t.threads[tid].Tearing?
                     && t.threads[tid].rpc.Record? && t.threads[tid].rpc.reached
                     && t.threads[tid].rpc.residue.items == a.items
                     && (t.threads[tid].rpc.residue.incomplete <==>
                           s.eng.epoch in s.canceled || exists i :: 0 <= i < |a.items| && a.items[i].err != ""))
               && (rpc.Ensure? && !a.ok ==>
                     t.eng == s.eng && t.threads[tid] == Tearing(s.eng.epoch, id, Record(Residue(true, []), false)))
               && (rpc.Record? ==>
                     && t.eng == s.eng.(current := Some(r.(residue := rpc.residue, updatedAt := a.now)))
                     && t.threads[tid] == Tearing(s.eng.epoch, id,
                          if rpc.reached then Review(rpc.residue.incomplete) else ResetFinish(true)))
               && (rpc.ResetFinish? ==>
                     && t.eng == s.eng.(current := Some(r.(state := if rpc.incomplete then Failed else Done,
                          err := a.msg, updatedAt := a.now)))
                     && t.threads[tid] == Tearing(s.eng.epoch, id,
                          ResetTailClear(t.eng.current.value, !rpc.incomplete)))
  {
    hide Inv;
    DriverKnows(w, s, tid);
  }

  /** Past its last hold a clean Reset saves, deletes the record and opens the gate; any other only saves. */
  lemma ResetTail(w: Wiring, s: Sys, tid: nat, a: Answer)
    requires tid in s.threads && s.threads[tid].Tearing? && s.threads[tid].epoch == s.eng.epoch
    ensures var t, rpc, id := Next(w, s, Advance(tid, a)), s.threads[tid].rpc, s.threads[tid].runId;
            && (rpc.ResetTailSave? && rpc.clean ==> t.threads[tid] == Tearing(s.eng.epoch, id, DeleteRecord))
            && (rpc.ResetTailSave? && !rpc.clean ==> t.threads[tid] == Closing(s.eng.epoch))
            && (rpc.DeleteRecord? ==> t.threads[tid] == Tearing(s.eng.epoch, id, Release))
            && (rpc.Release? ==>
                  t.eng == s.eng.(recoveredPending := false) && t.threads[tid] == Closing(s.eng.epoch))
  {
  }

  /** A header shows its component while its run's Apply is under way, each change under a new generation. */
  lemma MarkShows(w: Wiring, s: Sys, tid: nat, name: string, index: int, total: int)
    requires tid in s.threads && s.threads[tid].Executing? && s.threads[tid].pc.Stepping?
    requires s.threads[tid].epoch == s.eng.epoch && 0 <= s.threads[tid].pc.i < |w.steps| && name != ""
    ensures var t := Next(w, s, Mark(tid, name, index, total));
            if w.steps[s.threads[tid].pc.i].phase == Apply then
              t == s.(eng := s.eng.(cursor := Cursor(name, index, total, s.eng.cursor.generation + 1)))
            else t == s
  {
  }

  /** Whatever ends Apply, merged or failed, clears it again. */
  lemma ApplyEndClears(w: Wiring, s: Sys, tid: nat, a: Answer)
    requires tid in s.threads && s.threads[tid].Executing? && s.threads[tid].epoch == s.eng.epoch
    requires s.threads[tid].pc.OkClear? || s.threads[tid].pc.FailClear?
    requires 0 <= s.threads[tid].pc.i < |w.steps|
    ensures var t := Next(w, s, Advance(tid, a));
            && t.eng == s.eng.(cursor := t.eng.cursor)
            && (w.steps[s.threads[tid].pc.i].phase == Apply ==> t.eng.cursor.action == "")
            && (w.steps[s.threads[tid].pc.i].phase != Apply ==> t.eng.cursor == s.eng.cursor)
  {
  }
}
