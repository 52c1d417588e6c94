/**
 * What holds of every interleaving: the main results about the engine. A process begins Booted,
 * with whatever run Recover or reconciliation put in place, and then any sequence of events
 * happens to it, any call failing at any point.
 */
module Safety {
  import opened Wrappers
  import opened Runs
  import opened EngineSpec
  import opened Machine
  import opened Structure
  import opened Tracking
  import Decisions
  import Books

  /** A process that has recovered and not yet served a call. */
  predicate Booted(s: Sys) {
    && s.threads == map[] && s.canceled == {} && s.closed == {} && !s.panicked
    && s.eng.epoch == 0 && s.eng.resume == 0 && s.eng.full == {} && s.eng.handle == None && !s.eng.draining
    && !s.h.released && s.h.lost == {} && s.h.ownerOf == map[]
    && (s.eng.current.Some? ==>
          var r := s.eng.current.value;
          !IsLive(r.state) && 0 <= r.stepIndex && r.id == s.h.slot)
  }

  /** The only workload in the cluster, if any, is that of the run in place, and that run says so. */
  predicate BootTracked(s: Sys) {
    && (forall id :: id in s.workloads ==> Holds(s.eng, id))
    && (s.workloads != {} ==> s.eng.current.Some? && Guarded(s.eng.current.value))
  }

  // ---- every reachable state ----

  lemma {:induction false} Always(w: Wiring, s: Sys, evs: seq<Event>)
    requires Booted(s)
    ensures Inv(w, After(w, s, evs))
  {
    if evs == [] {
    } else {
      Always(w, s, evs[..|evs| - 1]);
      NextKeeps(w, After(w, s, evs[..|evs| - 1]), evs[|evs| - 1]);
    }
  }

  lemma {:induction false} AlwaysTracked(w: Wiring, s: Sys, evs: seq<Event>)
    requires ProveLast(w) && Booted(s) && BootTracked(s)
    ensures Tracked(w, After(w, s, evs))
  {
    if evs == [] {
    } else {
      Always(w, s, evs[..|evs| - 1]);
      AlwaysTracked(w, s, evs[..|evs| - 1]);
      NextTracks(w, After(w, s, evs[..|evs| - 1]), evs[|evs| - 1]);
    }
  }

  lemma {:induction false} AlwaysVouched(w: Wiring, s: Sys, evs: seq<Event>)
    requires Booted(s) && Decisions.Vouched(w, s)
    ensures Decisions.Vouched(w, After(w, s, evs))
  {
    if evs == [] {
    } else {
      Always(w, s, evs[..|evs| - 1]);
      AlwaysVouched(w, s, evs[..|evs| - 1]);
      Decisions.NextVouches(w, After(w, s, evs[..|evs| - 1]), evs[|evs| - 1]);
    }
  }

  lemma {:induction false} AlwaysBooked(w: Wiring, p: Books.Plan, s: Sys, evs: seq<Event>)
    requires Books.Ordered(w, p) && Booted(s) && Books.Booked(w, p, s)
    ensures Books.Booked(w, p, After(w, s, evs))
  {
    if evs == [] {
    } else {
      Always(w, s, evs[..|evs| - 1]);
      AlwaysBooked(w, p, s, evs[..|evs| - 1]);
      Books.NextBooks(w, p, After(w, s, evs[..|evs| - 1]), evs[|evs| - 1]);
    }
  }

  lemma {:induction false} AfterMore(w: Wiring, s: Sys, evs: seq<Event>, more: seq<Event>)
    ensures After(w, s, evs + more) == After(w, After(w, s, evs), more)
  {
    if more == [] {
      assert evs + more == evs;
    } else {
      AfterMore(w, s, evs, more[..|more| - 1]);
      assert (evs + more)[..|evs + more| - 1] == evs + more[..|more| - 1];
    }
  }

  // ---- one driver, and no run left behind by it ----

  /**
   * At most one thread drives; it carries the current epoch; the run is live exactly when it
   * exists; and nothing dereferences a nil run or closes a done channel twice.
   */
  lemma SoleDriver(w: Wiring, s: Sys, evs: seq<Event>)
    requires Booted(s)
    ensures var t := After(w, s, evs);
            && !t.panicked
            && (CurrentLive(t) <==> exists tid :: tid in t.threads && Driver(t.threads[tid]))
            && (forall tid :: tid in t.threads && Driver(t.threads[tid]) ==> t.threads[tid].epoch == t.eng.epoch)
            && (forall x, y :: x in t.threads && Driver(t.threads[x]) && y in t.threads && Driver(t.threads[y]) ==>
              x == y)
  {
    Always(w, s, evs);
    var t := After(w, s, evs);
    forall tid | tid in t.threads && Driver(t.threads[tid])
      ensures tid == t.h.ownerOf[t.eng.epoch] && CurrentLive(t) && t.threads[tid].epoch == t.eng.epoch
    {
      OneDriver(w, t, tid);
    }
    if CurrentLive(t) {
      assert t.h.ownerOf[t.eng.epoch] in t.threads && Driver(t.threads[t.h.ownerOf[t.eng.epoch]]);
    }
  }

  // ---- a workload is never orphaned ----

  /**
   * Whatever failed on the way, a workload in the cluster belongs to the current run, and while it
   * is there neither Start nor Discard goes through; excepted is only the workload of a run whose
   * own guard a failed Reset checkpoint dropped.
   */
  lemma WorkloadGuarded(w: Wiring, s: Sys, evs: seq<Event>, id: string)
    requires ProveLast(w) && Booted(s) && BootTracked(s)
    requires var t := After(w, s, evs); id in t.workloads && id !in t.h.lost
    ensures var t := After(w, s, evs);
            Holds(t.eng, id) && StartRefusal(t.eng).Some? && DiscardRefusal(t.eng, id).Some?
  {
    AlwaysTracked(w, s, evs);
    assert id in Held(After(w, s, evs));
  }

  /** Reset accepted, its checkpoint Save failed, rolled back. */
  function FailedReset(w: Wiring, s: Sys, tid: nat, runId: string, now: nat, a: Answer): Sys {
    Next(w, Next(w, Next(w, s, CallReset(tid, runId, true, true, now)), Advance(tid, a)), Advance(tid, a))
  }

  lemma ResetTaken(w: Wiring, s: Sys, tid: nat, runId: string, now: nat)
    requires tid !in s.threads && ResetRefusal(s.eng, w, runId, true, true).None?
    ensures var t, r := Next(w, s, CallReset(tid, runId, true, true, now)), s.eng.current.value;
            && tid in t.threads && t.threads[tid].Launching? && t.threads[tid].how == ByReset
            && t.threads == s.threads[tid := t.threads[tid]] && t.threads[tid].epoch == t.eng.epoch
            && t.threads[tid].snapshot.id == runId && s.eng.current.Some? && r.id == runId
            && t.eng.draining == s.eng.draining && t.eng.recoveredPending == s.eng.recoveredPending
            && t.eng.current == Some(r.(state := Resetting, err := "", residue := NO_RESIDUE, updatedAt := now))
            && t.workloads == s.workloads && t.h.lost == s.h.lost
  {
  }

  lemma ResetRolledBack(w: Wiring, s: Sys, tid: nat, runId: string, a: Answer)
    requires tid in s.threads && s.threads[tid].Launching? && s.threads[tid].how == ByReset && !a.ok
    requires s.threads[tid].epoch == s.eng.epoch && s.threads[tid].snapshot.id == runId && Holds(s.eng, runId)
    ensures var t, r := Next(w, Next(w, s, Advance(tid, a)), Advance(tid, a)), s.eng.current.value;
            && t.threads == s.threads[tid := Closing(s.eng.epoch)]
            && t.eng == s.eng.(current := Some(r.(state := Failed, updatedAt := a.now)))
            && t.workloads == s.workloads
            && t.h.lost == s.h.lost + if runId in s.workloads && !r.cleanupUnconfirmed then {runId} else {}
  {
  }

  /**
   * The one way to lose the guard. A Reset whose checkpoint fails lands in plain Failed with its
   * residue wiped, even from Active: Retry then goes through, Discard is refused exactly when the
   * sticky flag was set, and Start exactly when it was or the recovered gate still holds.
   */
  lemma FailedResetExactly(w: Wiring, s: Sys, tid: nat, runId: string, now: nat, a: Answer)
    requires tid !in s.threads && !a.ok
    requires ResetRefusal(s.eng, w, runId, true, true).None?
    ensures var t, r := FailedReset(w, s, tid, runId, now, a), s.eng.current.value;
            && t.eng.current == Some(r.(state := Failed, err := "", residue := NO_RESIDUE, updatedAt := a.now))
            && t.workloads == s.workloads && t.threads == s.threads[tid := Closing(t.eng.epoch)]
            && RetryRefusal(t.eng, runId).None?
            && (DiscardRefusal(t.eng, runId).Some? <==> r.cleanupUnconfirmed)
            && (StartRefusal(t.eng).Some? <==> r.cleanupUnconfirmed || s.eng.recoveredPending)
            && t.h.lost == s.h.lost + if runId in s.workloads && !r.cleanupUnconfirmed then {runId} else {}
  {
    hide Next;
    var s1 := Next(w, s, CallReset(tid, runId, true, true, now));
    ResetTaken(w, s, tid, runId, now);
    ResetRolledBack(w, s1, tid, runId, a);
  }

  /**
   * So its workload can then be orphaned exactly when it is there without the flag: a Discard takes
   * the record and leaves the workload behind.
   */
  lemma GuardDroppedExactly(w: Wiring, s: Sys, tid: nat, runId: string, now: nat, a: Answer, u: nat)
    requires tid !in s.threads && u !in s.threads && u != tid && !a.ok
    requires ResetRefusal(s.eng, w, runId, true, true).None?
    ensures var t := Next(w, FailedReset(w, s, tid, runId, now, a), CallDiscard(u, runId));
            t.eng.current.None? && runId in t.workloads <==>
              runId in s.workloads && !s.eng.current.value.cleanupUnconfirmed
  {
    FailedResetExactly(w, s, tid, runId, now, a);
    hide FailedReset;
  }

  // ---- what a step did is kept ----

  /**
   * Whatever came before, a step that succeeded is merged: the run holds every artifact of its copy
   * and those it already had, its inventory, evidence, workload and verdict, and stands one step on.
   */
  lemma SuccessIsMerged(w: Wiring, s: Sys, evs: seq<Event>, tid: nat, a: Answer)
    requires Booted(s)
    requires var t := After(w, s, evs); tid in t.threads && t.threads[tid].Executing? && t.threads[tid].pc.MergeOk?
    ensures var t, t' := After(w, s, evs), After(w, s, evs + [Advance(tid, a)]);
            && t.eng.current.Some? && t'.eng.current.Some?
            && var scratch, r, r' := t.threads[tid].pc.scratch, t.eng.current.value, t'.eng.current.value;
               && r'.id == r.id == scratch.id && r'.state == r.state && r'.decisions == r.decisions
               && r'.components == scratch.components && r'.ownership == scratch.ownership
               && r'.agentNamespace == scratch.agentNamespace && r'.workload == scratch.workload
               && r'.validation == scratch.validation
               && (forall k :: k in scratch.artifacts ==>
                     k in r'.artifacts && r'.artifacts[k] == scratch.artifacts[k])
               && (forall k :: k in r.artifacts && k !in scratch.artifacts ==>
                     k in r'.artifacts && r'.artifacts[k] == r.artifacts[k])
               && r'.stepIndex == r.stepIndex + 1 && r'.cleanupUnconfirmed == r.cleanupUnconfirmed
               && r'.updatedAt == a.now && t'.threads[tid].pc == OkClear(r.stepIndex, r')
  {
    Always(w, s, evs);
    assert (evs + [Advance(tid, a)])[..|evs|] == evs;
    hide Inv;
    Structure.DriverKnows(w, After(w, s, evs), tid);
    MergedWhole(w, After(w, s, evs), tid, a);
  }

  lemma MergedWhole(w: Wiring, t: Sys, tid: nat, a: Answer)
    requires tid in t.threads && t.threads[tid].Executing? && t.threads[tid].pc.MergeOk?
    requires t.threads[tid].epoch == t.eng.epoch && t.eng.current.Some?
    ensures var scratch, r := t.threads[tid].pc.scratch, t.eng.current.value;
            var t' := Next(w, t, Advance(tid, a));
            && t'.eng.current == Some(r.(artifacts := r.artifacts + scratch.artifacts,
                 decisions := r.decisions + scratch.decisions, components := scratch.components,
                 workload := scratch.workload, ownership := scratch.ownership,
                 agentNamespace := scratch.agentNamespace, validation := scratch.validation,
                 stepIndex := t.threads[tid].pc.i + 1, updatedAt := a.now))
            && tid in t'.threads
            && t'.threads[tid] == Executing(t.eng.epoch, OkClear(t.threads[tid].pc.i, t'.eng.current.value))
  {
  }

  /**
   * And one that failed keeps what it did to the cluster, its rows, its evidence and the agent's
   * namespace, and nothing else of its copy; the cleanup mark moves only on evidence.
   */
  lemma FailureIsKept(w: Wiring, s: Sys, evs: seq<Event>, tid: nat, a: Answer)
    requires Booted(s)
    requires var t := After(w, s, evs); tid in t.threads && t.threads[tid].Executing? && t.threads[tid].pc.MergeFail?
    ensures var t, t' := After(w, s, evs), After(w, s, evs + [Advance(tid, a)]);
            && t.eng.current.Some? && t'.eng.current.Some?
            && var pc, r, r' := t.threads[tid].pc, t.eng.current.value, t'.eng.current.value;
               && r'.components == pc.scratch.components && r'.ownership == pc.scratch.ownership
               && r'.agentNamespace == pc.scratch.agentNamespace
               && (pc.why == Unconfirmed ==> r'.cleanupUnconfirmed)
               && (pc.why == Confirmed ==> !r'.cleanupUnconfirmed)
               && (pc.why == Plain ==> r'.cleanupUnconfirmed == r.cleanupUnconfirmed)
               && r' == r.(components := r'.components, ownership := r'.ownership, agentNamespace := r'.agentNamespace,
                    cleanupUnconfirmed := r'.cleanupUnconfirmed)
               && tid in t'.threads && t'.threads[tid] == Executing(t.eng.epoch, FailClear(r.stepIndex))
  {
    Always(w, s, evs);
    assert (evs + [Advance(tid, a)])[..|evs|] == evs;
    hide Inv;
    Structure.DriverKnows(w, After(w, s, evs), tid);
  }

  // ---- stale goroutines ----

  /** All of the engine but the recovered gate. */
  predicate SameButGate(a: Eng, b: Eng) { b.(recoveredPending := a.recoveredPending) == a }

  lemma StaleExecute(w: Wiring, s: Sys, tid: nat, a: Answer)
    requires tid in s.threads && s.threads[tid].Executing? && !Driver(s.threads[tid]) &&
             s.threads[tid].epoch != s.eng.epoch
    ensures SameButGate(s.eng, Execute(w, s, tid, s.threads[tid].epoch, s.threads[tid].pc, a).eng)
  {
  }

  lemma StaleTeardown(s: Sys, tid: nat, epoch: nat, runId: string, rpc: ResetPc, a: Answer)
    requires tid in s.threads && epoch != s.eng.epoch
    ensures SameButGate(s.eng, Teardown(s, tid, epoch, runId, rpc, a).eng)
  {
  }

  lemma StaleStop(s: Sys, tid: nat, epoch: nat, runId: string, spc: StopPc, a: Answer)
    requires tid in s.threads && epoch != s.eng.epoch
    ensures SameButGate(s.eng, Stop(s, tid, epoch, runId, spc, a).eng)
  {
  }

  lemma StaleOther(w: Wiring, s: Sys, tid: nat, a: Answer)
    requires tid in s.threads && s.threads[tid].epoch != s.eng.epoch
    requires var t := s.threads[tid]; t.Closing? || t.Discarding? || t.Cancelling?
    ensures SameButGate(s.eng, Move(w, s, tid, a).eng)
  {
  }

  /** A thread whose epoch has been superseded moves without changing the run, the cursor or a wake-up. */
  lemma StaleChangesNothing(w: Wiring, s: Sys, tid: nat, a: Answer)
    requires Inv(w, s) && tid in s.threads && s.threads[tid].epoch != s.eng.epoch
    ensures Next(w, s, Advance(tid, a)).eng.(recoveredPending := s.eng.recoveredPending) == s.eng
  {
    assert CallOk(ViewOf(w, s), tid, s.threads[tid]);
    assert !Driver(s.threads[tid]) by { if Driver(s.threads[tid]) { OneDriver(w, s, tid); } }
    hide Inv, CallOk, ViewOf, Execute, Teardown, Stop;
    match s.threads[tid]
    case Executing(_, _) => StaleExecute(w, s, tid, a);
    case Tearing(epoch, runId, rpc) => StaleTeardown(s, tid, epoch, runId, rpc, a);
    case Stopping(epoch, runId, spc) => StaleStop(s, tid, epoch, runId, spc, a);
    case Deciding(_, _, _, _) => assert false;
    case _ => StaleOther(w, s, tid, a);
  }

  // ---- CancelAndWait ----

  lemma {:induction false} ReleasedStays(w: Wiring, s: Sys, more: seq<Event>)
    requires Inv(w, s) && s.h.released
    ensures Inv(w, After(w, s, more)) && After(w, s, more).h.released
  {
    if more == [] {
    } else {
      ReleasedStays(w, s, more[..|more| - 1]);
      NextKeeps(w, After(w, s, more[..|more| - 1]), more[|more| - 1]);
      NextRemembers(w, After(w, s, more[..|more| - 1]), more[|more| - 1]);
    }
  }

  /** Once CancelAndWait has returned nil, nothing drives the run and nothing ever will again. */
  lemma ReleasedForGood(w: Wiring, s: Sys, evs: seq<Event>, more: seq<Event>)
    requires Booted(s) && After(w, s, evs).h.released
    ensures var t := After(w, s, evs + more);
            && t.eng.draining && !CurrentLive(t)
            && forall tid :: tid in t.threads ==> !Driver(t.threads[tid])
  {
    Always(w, s, evs);
    ReleasedStays(w, After(w, s, evs), more);
    AfterMore(w, s, evs, more);
    SoleDriver(w, s, evs + more);
  }

  // ---- gates ----

  /**
   * A goroutine past its gate holds every key its step requires, each accepted by a Decide and
   * each in a record some Save completed.
   */
  lemma StepHasItsKeys(w: Wiring, s: Sys, evs: seq<Event>, tid: nat, k: string)
    requires Booted(s) && Decisions.Vouched(w, s)
    requires var t := After(w, s, evs);
             && tid in t.threads && t.threads[tid].Executing? && InsideStep(t.threads[tid].pc)
             && 0 <= t.threads[tid].pc.i < |w.steps| && k in w.steps[t.threads[tid].pc.i].requires_
    ensures var t := After(w, s, evs);
            && t.eng.current.Some? && k in t.eng.current.value.decisions
            && (t.eng.current.value.id, k) in t.h.accepted && (t.eng.current.value.id, k) in t.h.durable
  {
    Always(w, s, evs);
    AlwaysVouched(w, s, evs);
    hide Next, Inv, Decisions.Vouched;
    Decisions.DriverKnows(w, After(w, s, evs), tid);
  }

  /** The keys a Decide adds are those the parked run asked for, no more and no fewer. */
  lemma AcceptedWhileParked(w: Wiring, s: Sys, ev: Event, id: string, k: string)
    requires Inv(w, s) && (id, k) !in s.h.accepted && (id, k) in Next(w, s, ev).h.accepted
    ensures ev.CallDecide? && ev.runId == id && k in ev.decisions
    ensures Holds(s.eng, id) && s.eng.current.value.state == AwaitingDecision && k in s.eng.current.value.pending
    ensures forall p :: p in s.eng.current.value.pending ==> p in ev.decisions
    ensures HasOwner(s) && (AtGate(OwnerOf(s)) || (Cut(OwnerOf(s)) && s.eng.draining))
  {
    NextRemembers(w, s, ev);
    if CurrentLive(s) {
      OneDriver(w, s, s.h.ownerOf[s.eng.epoch]);
      assert DriverOk(ViewOf(w, s), OwnerOf(s));
    }
  }

  /**
   * A parked goroutine always waits for something that can come: either the run is asking for
   * exactly what its step still needs, or a wake-up is in the channel or a Decide about to send one.
   */
  lemma ParkedIsAsking(w: Wiring, s: Sys, evs: seq<Event>, tid: nat)
    requires Booted(s)
    requires var t := After(w, s, evs); tid in t.threads && t.threads[tid].Executing? && t.threads[tid].pc.Park?
    ensures var t := After(w, s, evs);
            && t.eng.current.Some? && 0 <= t.threads[tid].pc.i < |w.steps|
            && var r := t.eng.current.value;
               if r.state == AwaitingDecision then
                 forall k :: k in w.steps[t.threads[tid].pc.i].requires_ ==> k in r.decisions || k in r.pending
               else t.threads[tid].pc.channel in t.eng.full || DecideInFlight(t)
  {
    Always(w, s, evs);
    OneDriver(w, After(w, s, evs), tid);
    assert DriverOk(ViewOf(w, After(w, s, evs)), After(w, s, evs).threads[tid]);
  }

  /**
   * Whenever a Decide is about to return nil and the process is not shutting down, the one-slot
   * buffer is empty, so its wake-up is delivered to the goroutine parked at the gate.
   */
  lemma WakeUpDelivered(w: Wiring, s: Sys, evs: seq<Event>, tid: nat, a: Answer)
    requires Booted(s)
    requires var t := After(w, s, evs);
             tid in t.threads && t.threads[tid].Deciding? && t.threads[tid].dpc.DecideSignalling? && !t.eng.draining
    ensures var t := After(w, s, evs);
            var t' := Next(w, t, Advance(tid, a));
            && CurrentLive(t) && t.threads[tid].epoch == t.eng.epoch && t.eng.resume !in t.eng.full
            && HasOwner(t') && AtGate(OwnerOf(t')) && OwnerOf(t').pc.channel in t'.eng.full
  {
    Always(w, s, evs);
    Signalled(w, After(w, s, evs), tid, a);
  }

  lemma Signalled(w: Wiring, s: Sys, tid: nat, a: Answer)
    requires Inv(w, s) && tid in s.threads && s.threads[tid].Deciding? && s.threads[tid].dpc.DecideSignalling?
    requires !s.eng.draining
    ensures CurrentLive(s) && s.threads[tid].epoch == s.eng.epoch && s.eng.resume !in s.eng.full
    ensures var t := Next(w, s, Advance(tid, a));
            HasOwner(t) && AtGate(OwnerOf(t)) && OwnerOf(t).pc.channel in t.eng.full
  {
    assert CallOk(ViewOf(w, s), tid, s.threads[tid]);
    OneDriver(w, s, s.h.ownerOf[s.eng.epoch]);
    assert DriverOk(ViewOf(w, s), OwnerOf(s));
    assert s.h.ownerOf[s.eng.epoch] != tid;
  }

  /** Woken: two more moves and the step it was parked before begins. */
  lemma WokenBegins(w: Wiring, s: Sys, tid: nat, a: Answer, a': Answer)
    requires Inv(w, s) && tid in s.threads && s.threads[tid].Executing? && s.threads[tid].pc.Park?
    requires s.threads[tid].pc.channel in s.eng.full && a.ok
    ensures var t := Next(w, Next(w, s, Advance(tid, a)), Advance(tid, a'));
            tid in t.threads && t.threads[tid] == Executing(s.eng.epoch, Begin(s.threads[tid].pc.i))
  {
    OneDriver(w, s, tid);
    var i := s.threads[tid].pc.i;
    assert DriverOk(ViewOf(w, s), s.threads[tid]);
    assert Missing(w.steps[i].requires_, s.eng.current.value.decisions) == [] by {
      NoneMissing(w.steps[i].requires_, s.eng.current.value.decisions);
    }
  }

  // ---- the books ----

  /** A run's completed steps are consecutive and end where its step index stands. */
  lemma StepsInOrderOnce(w: Wiring, p: Books.Plan, s: Sys, evs: seq<Event>)
    requires Books.Ordered(w, p) && Booted(s) && Books.Booked(w, p, s)
    requires After(w, s, evs).eng.current.Some?
    ensures var t := After(w, s, evs);
            var id := t.eng.current.value.id;
            && id in t.h.completed && id in t.h.base
            && |t.h.completed[id]| == t.eng.current.value.stepIndex - t.h.base[id]
            && forall j :: 0 <= j < |t.h.completed[id]| ==> t.h.completed[id][j] == t.h.base[id] + j
  {
    AlwaysBooked(w, p, s, evs);
  }

  /** A goroutine inside a step after step b. */
  predicate PastBundle(w: Wiring, b: int, t: Sys, tid: nat) {
    && tid in t.threads && t.threads[tid].Executing?
    && InsideStep(t.threads[tid].pc) && b < t.threads[tid].pc.i < |w.steps|
  }

  /** The run's bundle path, and that of the copy its step runs on, is the one its Bundle wrote in this process. */
  predicate OwnBundle(t: Sys, tid: nat)
    requires tid in t.threads && t.threads[tid].Executing?
  {
    && t.eng.current.Some?
    && var r := t.eng.current.value;
       && r.id in t.h.bundled && BUNDLE_PATH in r.artifacts && r.artifacts[BUNDLE_PATH] == t.h.bundled[r.id]
       && (t.threads[tid].pc.Stepping? ==> t.threads[tid].pc.scratch.artifacts == r.artifacts)
  }

  /** Past the Bundle step a goroutine works with the bundle path this process's own Bundle wrote. */
  lemma ApplyHasItsBundle(w: Wiring, p: Books.Plan, s: Sys, evs: seq<Event>, tid: nat)
    requires p.bundle.Some? && Books.Ordered(w, p) && Booted(s) && Books.Booked(w, p, s)
    requires PastBundle(w, p.bundle.value, After(w, s, evs), tid)
    ensures OwnBundle(After(w, s, evs), tid)
  {
    Always(w, s, evs);
    AlwaysBooked(w, p, s, evs);
    BookedHasItsBundle(w, p, After(w, s, evs), tid);
  }

  lemma BookedHasItsBundle(w: Wiring, p: Books.Plan, t: Sys, tid: nat)
    requires p.bundle.Some? && Inv(w, t) && Books.Booked(w, p, t) && PastBundle(w, p.bundle.value, t, tid)
    ensures OwnBundle(t, tid)
  {
    OneDriver(w, t, tid);
    assert DriverOk(ViewOf(w, t), t.threads[tid]);
    assert Books.ThreadBooks(w, p, t, t.threads[tid]);
  }

  lemma {:induction false} RecipeLasts(w: Wiring, p: Books.Plan, s: Sys, more: seq<Event>, id: string)
    requires p.recommend.Some? && Books.Ordered(w, p) && Inv(w, s) && Books.Booked(w, p, s) && id in s.h.recipes
    ensures var t := After(w, s, more);
            Inv(w, t) && Books.Booked(w, p, t) && id in t.h.recipes && t.h.recipes[id] == s.h.recipes[id]
  {
    if more == [] {
    } else {
      hide Next, Inv, Books.Booked;
      var most := more[..|more| - 1];
      RecipeLasts(w, p, s, most, id);
      NextKeeps(w, After(w, s, most), more[|more| - 1]);
      Books.NextBooks(w, p, After(w, s, most), more[|more| - 1]);
      Books.RecipeStays(w, p, After(w, s, most), more[|more| - 1], id);
    }
  }

  /** A run's recipe is written at most once: whatever happens later, it reads the same. */
  lemma RecipeWrittenOnce(w: Wiring, p: Books.Plan, s: Sys, evs: seq<Event>, more: seq<Event>, id: string)
    requires p.recommend.Some? && Books.Ordered(w, p) && Booted(s) && Books.Booked(w, p, s)
    requires id in After(w, s, evs).h.recipes
    ensures var t := After(w, s, evs + more);
            id in t.h.recipes && t.h.recipes[id] == After(w, s, evs).h.recipes[id]
  {
    Always(w, s, evs);
    AlwaysBooked(w, p, s, evs);
    hide Inv, Books.Booked;
    RecipeLasts(w, p, After(w, s, evs), more, id);
    AfterMore(w, s, evs, more);
  }
}
