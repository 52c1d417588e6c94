/**
 * Decisions: a step begins only once every key it requires was accepted at the gate and some
 * successful Save already held it, and no accepted Decide loses its wake-up.
 */
module Decisions {
  import opened Wrappers
  import opened Runs
  import opened EngineSpec
  import opened Machine
  import opened Structure

  /** Every decision of r was accepted at a gate, or came with the run Recover loaded. */
  predicate Asked(h: History, r: Run) { forall k :: k in r.decisions ==> (r.id, k) in h.accepted }

  /** Every decision of r is in some record a Save completed. */
  predicate Kept(h: History, r: Run) { forall k :: k in r.decisions ==> (r.id, k) in h.durable }

  predicate Vouches(h: History, r: Run) { Asked(h, r) && Kept(h, r) }

  /** The run a rollback would put back. */
  predicate ThreadVouches(h: History, t: Thread) {
    match t
    case Launching(_, how, _) => how.ByStart? && how.previous.Some? ==> Vouches(h, how.previous.value)
    case Undoing(_, how, _) => how.ByStart? && how.previous.Some? ==> Vouches(h, how.previous.value)
    case Deciding(_, _, prev, _) => Vouches(h, prev)
    case Discarding(_, gone, _) => Vouches(h, gone.0)
    case _ => true
  }

  /** The Decide in flight: what it is saving is what the engine holds, and once saved it is kept. */
  predicate DecideVouches(s: Sys, t: Thread)
    requires CurrentLive(s)
  {
    t.Deciding? && t.epoch == s.eng.epoch ==>
      match t.dpc
      case DecideSaving(snapshot) => snapshot.id == s.eng.current.value.id &&
        snapshot.decisions == s.eng.current.value.decisions
      case DecideUndoing => true
      case DecideSignalling => Kept(s.h, s.eng.current.value)
  }

  /** A live run's decisions are kept, except while it is parked on ones a Decide is still saving. */
  predicate DriverKeeps(v: View, h: History, t: Thread)
    requires v.Live()
  {
    if AtGate(t) then v.current.value.state == AwaitingDecision || v.token ==> Kept(h, v.current.value)
    else (Cut(t) && v.draining && v.current.value.state == Running) || Kept(h, v.current.value)
  }

  predicate Vouched(w: Wiring, s: Sys) {
    && (forall tid :: tid in s.threads ==> ThreadVouches(s.h, s.threads[tid]))
    && (s.eng.current.Some? ==> Asked(s.h, s.eng.current.value))
    && (s.eng.current.Some? && !CurrentLive(s) && !s.eng.draining ==> Kept(s.h, s.eng.current.value))
    && (CurrentLive(s) ==>
          && (forall tid :: tid in s.threads ==> DecideVouches(s, s.threads[tid]))
          && (HasOwner(s) ==> DriverKeeps(ViewOf(w, s), s.h, OwnerOf(s))))
  }

  // ---- frames ----

  /** Decisions only ever join the histories. */
  predicate Grows(a: History, b: History) {
    a.accepted <= b.accepted && a.durable <= b.durable && SameRoles(a, b)
  }

  lemma VouchesGrows(a: History, b: History, t: Thread)
    requires Grows(a, b) && ThreadVouches(a, t)
    ensures ThreadVouches(b, t)
  {
  }

  /** The driver moves. */
  lemma DriverVouches(w: Wiring, s: Sys, s': Sys, tid: nat)
    requires Inv(w, s) && Vouched(w, s) && OnlyMoves(s, s', tid) && Driver(s.threads[tid])
    requires Grows(s.h, s'.h) && tid in s'.threads && Owner(s'.threads[tid]) && s'.threads[tid].epoch == s.eng.epoch
    requires ThreadVouches(s'.h, s'.threads[tid])
    requires s'.eng.current.Some? ==> Asked(s'.h, s'.eng.current.value)
    requires s'.eng.current.Some? && !CurrentLive(s') && !s'.eng.draining ==> Kept(s'.h, s'.eng.current.value)
    requires CurrentLive(s') ==> DriverKeeps(ViewOf(w, s'), s'.h, s'.threads[tid])
    requires Quiet(ViewOf(w, s)) || s'.eng.current == s.eng.current || !CurrentLive(s')
    ensures Vouched(w, s')
  {
    OneDriver(w, s, tid);
    forall u | u in s'.threads && u != tid
      ensures u in s.threads && ThreadVouches(s'.h, s'.threads[u]) &&
              (CurrentLive(s') ==> DecideVouches(s', s'.threads[u]))
    {
      Untouched(s, s', tid, u);
      VouchesGrows(s.h, s'.h, s.threads[u]);
      assert CallOk(ViewOf(w, s), u, s.threads[u]);
    }
  }

  lemma DriverKnows(w: Wiring, s: Sys, tid: nat)
    requires Inv(w, s) && Vouched(w, s) && tid in s.threads && Driver(s.threads[tid])
    ensures HasOwner(s) && s.h.ownerOf[s.eng.epoch] == tid && OwnerOf(s) == s.threads[tid]
    ensures s.threads[tid].epoch == s.eng.epoch && CurrentLive(s)
    ensures DriverOk(ViewOf(w, s), s.threads[tid]) && ThreadVouches(s.h, s.threads[tid])
    ensures s.eng.current.value.id == s.h.slot && 0 <= s.eng.current.value.stepIndex
    ensures Asked(s.h, s.eng.current.value) && DriverKeeps(ViewOf(w, s), s.h, s.threads[tid])
  {
    OneDriver(w, s, tid);
  }

  /** While the run is live, a thread that is not its driver moves past the driver and every other Decide. */
  lemma OthersLive(w: Wiring, s: Sys, s': Sys, tid: nat)
    requires Vouched(w, s) && tid in s.threads && !Driver(s.threads[tid]) && ThreadsMove(s.threads, s'.threads, tid)
    requires HasOwner(s) && Driver(OwnerOf(s)) && Grows(s.h, s'.h) && CurrentLive(s) && s'.eng.current == s.eng.current
    requires s'.eng == s.eng.(cursor := s'.eng.cursor, recoveredPending := s'.eng.recoveredPending)
    requires tid in s'.threads ==> DecideVouches(s', s'.threads[tid])
    ensures forall u :: u in s'.threads ==> DecideVouches(s', s'.threads[u])
    ensures HasOwner(s') ==> DriverKeeps(ViewOf(w, s'), s'.h, OwnerOf(s'))
  {
    hide ThreadVouches;
    forall u | u in s'.threads ensures DecideVouches(s', s'.threads[u]) {
      if u != tid { Untouched(s, s', tid, u); }
    }
    Untouched(s, s', tid, s.h.ownerOf[s.eng.epoch]);
  }

  /** A thread that is not the driver moves and leaves the run's decisions alone. */
  lemma OthersVouch(w: Wiring, s: Sys, s': Sys, tid: nat)
    requires Vouched(w, s) && tid in s.threads && !Driver(s.threads[tid]) && ThreadsMove(s.threads, s'.threads, tid)
    requires Inv(w, s) && Grows(s.h, s'.h) &&
             s'.eng == s.eng.(current := s'.eng.current, cursor := s'.eng.cursor,
               recoveredPending := s'.eng.recoveredPending)
    requires tid in s'.threads ==>
             !Driver(s'.threads[tid]) && ThreadVouches(s'.h, s'.threads[tid]) &&
             (CurrentLive(s') ==> DecideVouches(s', s'.threads[tid]))
    requires s'.eng.current == s.eng.current ||
             (s'.eng.current.Some? && !CurrentLive(s') && Asked(s'.h, s'.eng.current.value) &&
               (s.eng.draining || Kept(s'.h, s'.eng.current.value)))
    ensures Vouched(w, s')
  {
    hide Inv;
    if CurrentLive(s') {
      LiveIsDriven(w, s);
      OthersLive(w, s, s', tid);
    }
    hide DecideVouches, DriverKeeps, ViewOf;
    forall u | u in s'.threads && u != tid
      ensures u in s.threads && s'.threads[u] == s.threads[u] && ThreadVouches(s'.h, s'.threads[u])
    {
      Untouched(s, s', tid, u);
      VouchesGrows(s.h, s'.h, s.threads[u]);
    }
  }

  lemma LiveIsDriven(w: Wiring, s: Sys)
    requires Inv(w, s) && CurrentLive(s)
    ensures HasOwner(s) && Driver(OwnerOf(s))
  {
  }

  // ---- the execute goroutine ----

  lemma LaunchVouches(w: Wiring, s: Sys, tid: nat, a: Answer)
    requires Inv(w, s) && Vouched(w, s) && tid in s.threads && s.threads[tid].Launching?
    ensures Vouched(w, Window(w, s, tid, s.threads[tid], a))
  {
    hide Inv, Vouched;
    DriverKnows(w, s, tid);
    DriverVouches(w, s, Window(w, s, tid, s.threads[tid], a), tid);
  }

  lemma StepVouches(w: Wiring, s: Sys, tid: nat, a: Answer)
    requires Inv(w, s) && Vouched(w, s) && tid in s.threads && s.threads[tid].Executing? && s.threads[tid].pc.Stepping?
    ensures Vouched(w, Execute(w, s, tid, s.threads[tid].epoch, s.threads[tid].pc, a))
  {
    hide Inv, Vouched;
    var t := s.threads[tid];
    var s' := Execute(w, s, tid, t.epoch, t.pc, a);
    DriverKnows(w, s, tid);
    RunStepShape(w, s, tid, t.epoch, t.pc.i, t.pc.scratch, t.pc.call, a);
    if s' != s {
      DriverVouches(w, s, s', tid);
    }
  }

  lemma AwaitSaveVouches(w: Wiring, s: Sys, tid: nat, a: Answer)
    requires Inv(w, s) && Vouched(w, s) && tid in s.threads && s.threads[tid].Executing? && s.threads[tid].pc.AwaitSave?
    ensures Vouched(w, Execute(w, s, tid, s.threads[tid].epoch, s.threads[tid].pc, a))
  {
    var s' := Execute(w, s, tid, s.threads[tid].epoch, s.threads[tid].pc, a);
    DriverKnows(w, s, tid);
    if s' != s {
      DriverVouches(w, s, s', tid);
    }
  }

  lemma WokenVouches(w: Wiring, s: Sys, tid: nat, a: Answer)
    requires Inv(w, s) && Vouched(w, s) && tid in s.threads && s.threads[tid].Executing? && s.threads[tid].pc.Park? &&
             a.ok
    ensures Vouched(w, Execute(w, s, tid, s.threads[tid].epoch, s.threads[tid].pc, a))
  {
    var s' := Execute(w, s, tid, s.threads[tid].epoch, s.threads[tid].pc, a);
    DriverKnows(w, s, tid);
    if s' != s {
      DriverVouches(w, s, s', tid);
    }
  }

  lemma CutVouches(w: Wiring, s: Sys, tid: nat, a: Answer)
    requires Inv(w, s) && Vouched(w, s) && tid in s.threads && s.threads[tid].Executing? && s.threads[tid].pc.Park? &&
             !a.ok
    ensures Vouched(w, Execute(w, s, tid, s.threads[tid].epoch, s.threads[tid].pc, a))
  {
    var s' := Execute(w, s, tid, s.threads[tid].epoch, s.threads[tid].pc, a);
    DriverKnows(w, s, tid);
    if s' != s {
      DriverVouches(w, s, s', tid);
    }
  }

  lemma TopVouches(w: Wiring, s: Sys, tid: nat, a: Answer)
    requires Inv(w, s) && Vouched(w, s) && tid in s.threads && s.threads[tid].Executing?
    requires var pc := s.threads[tid].pc; pc.Top?
    ensures Vouched(w, Execute(w, s, tid, s.threads[tid].epoch, s.threads[tid].pc, a))
  {
    hide Inv, Vouched;
    DriverKnows(w, s, tid);
    DriverVouches(w, s, Execute(w, s, tid, s.threads[tid].epoch, s.threads[tid].pc, a), tid);
  }

  lemma AwaitVouches(w: Wiring, s: Sys, tid: nat, a: Answer)
    requires Inv(w, s) && Vouched(w, s) && tid in s.threads && s.threads[tid].Executing? && s.threads[tid].pc.Await?
    ensures Vouched(w, Execute(w, s, tid, s.threads[tid].epoch, s.threads[tid].pc, a))
  {
    hide Inv, Vouched, Execute;
    var t := s.threads[tid];
    DriverKnows(w, s, tid);
    AwaitIsGate(w, s, tid, t.epoch, t.pc.i, a);
    DriverVouches(w, s, Execute(w, s, tid, t.epoch, t.pc, a), tid);
  }

  lemma BeginVouches(w: Wiring, s: Sys, tid: nat, a: Answer)
    requires Inv(w, s) && Vouched(w, s) && tid in s.threads && s.threads[tid].Executing?
    requires var pc := s.threads[tid].pc; pc.Begin? || pc.BeginSave?
    ensures Vouched(w, Execute(w, s, tid, s.threads[tid].epoch, s.threads[tid].pc, a))
  {
    hide Inv, Vouched;
    DriverKnows(w, s, tid);
    DriverVouches(w, s, Execute(w, s, tid, s.threads[tid].epoch, s.threads[tid].pc, a), tid);
  }

  lemma MergeFailVouches(w: Wiring, s: Sys, tid: nat, a: Answer)
    requires Inv(w, s) && Vouched(w, s) && tid in s.threads && s.threads[tid].Executing?
    requires var pc := s.threads[tid].pc; pc.MergeFail? || pc.FailClear?
    ensures Vouched(w, Execute(w, s, tid, s.threads[tid].epoch, s.threads[tid].pc, a))
  {
    hide Inv, Vouched;
    DriverKnows(w, s, tid);
    DriverVouches(w, s, Execute(w, s, tid, s.threads[tid].epoch, s.threads[tid].pc, a), tid);
  }

  lemma MergeOkVouches(w: Wiring, s: Sys, tid: nat, a: Answer)
    requires Inv(w, s) && Vouched(w, s) && tid in s.threads && s.threads[tid].Executing? && s.threads[tid].pc.MergeOk?
    ensures Vouched(w, Execute(w, s, tid, s.threads[tid].epoch, s.threads[tid].pc, a))
  {
    hide Inv, Vouched;
    DriverKnows(w, s, tid);
    DriverVouches(w, s, Execute(w, s, tid, s.threads[tid].epoch, s.threads[tid].pc, a), tid);
  }

  lemma OkVouches(w: Wiring, s: Sys, tid: nat, a: Answer)
    requires Inv(w, s) && Vouched(w, s) && tid in s.threads && s.threads[tid].Executing?
    requires var pc := s.threads[tid].pc; pc.OkClear? || pc.OkSave?
    ensures Vouched(w, Execute(w, s, tid, s.threads[tid].epoch, s.threads[tid].pc, a))
  {
    hide Inv, Vouched;
    DriverKnows(w, s, tid);
    DriverVouches(w, s, Execute(w, s, tid, s.threads[tid].epoch, s.threads[tid].pc, a), tid);
  }

  lemma FinishVouches(w: Wiring, s: Sys, tid: nat, a: Answer)
    requires Inv(w, s) && Vouched(w, s) && tid in s.threads && s.threads[tid].Executing? && s.threads[tid].pc.Finish?
    ensures Vouched(w, Execute(w, s, tid, s.threads[tid].epoch, s.threads[tid].pc, a))
  {
    hide Inv, Vouched;
    DriverKnows(w, s, tid);
    DriverVouches(w, s, Execute(w, s, tid, s.threads[tid].epoch, s.threads[tid].pc, a), tid);
  }

  // ---- the reset goroutine, tails and failed launches ----

  lemma LookVouches(w: Wiring, s: Sys, tid: nat, a: Answer)
    requires Inv(w, s) && Vouched(w, s) && tid in s.threads && s.threads[tid].Tearing?
    requires var rpc := s.threads[tid].rpc; rpc.Look? || rpc.Ensure? || rpc.Uninstall?
    ensures var t := s.threads[tid]; Vouched(w, Teardown(s, tid, t.epoch, t.runId, t.rpc, a))
  {
    hide Inv, Vouched;
    var t := s.threads[tid];
    var s' := Teardown(s, tid, t.epoch, t.runId, t.rpc, a);
    DriverKnows(w, s, tid);
    if s' != s {
      DriverVouches(w, s, s', tid);
    }
  }

  lemma RecordVouches(w: Wiring, s: Sys, tid: nat, a: Answer)
    requires Inv(w, s) && Vouched(w, s) && tid in s.threads && s.threads[tid].Tearing?
    requires var rpc := s.threads[tid].rpc; rpc.Record? || rpc.Review?
    ensures var t := s.threads[tid]; Vouched(w, Teardown(s, tid, t.epoch, t.runId, t.rpc, a))
  {
    hide Inv, Vouched;
    var t := s.threads[tid];
    var s' := Teardown(s, tid, t.epoch, t.runId, t.rpc, a);
    DriverKnows(w, s, tid);
    if s' != s {
      DriverVouches(w, s, s', tid);
    }
  }

  lemma ResetFinishVouches(w: Wiring, s: Sys, tid: nat, a: Answer)
    requires Inv(w, s) && Vouched(w, s) && tid in s.threads && s.threads[tid].Tearing?
    requires var rpc := s.threads[tid].rpc; rpc.ResetFinish?
    ensures var t := s.threads[tid]; Vouched(w, Teardown(s, tid, t.epoch, t.runId, t.rpc, a))
  {
    hide Inv, Vouched;
    var t := s.threads[tid];
    var s' := Teardown(s, tid, t.epoch, t.runId, t.rpc, a);
    DriverKnows(w, s, tid);
    if s' != s {
      DriverVouches(w, s, s', tid);
    }
  }

  lemma TornClearVouches(w: Wiring, s: Sys, tid: nat, a: Answer)
    requires Inv(w, s) && Vouched(w, s) && tid in s.threads && s.threads[tid].Tearing?
    requires var rpc := s.threads[tid].rpc; rpc.ResetTailClear?
    ensures var t := s.threads[tid]; Vouched(w, Teardown(s, tid, t.epoch, t.runId, t.rpc, a))
  {
    var t := s.threads[tid];
    OthersVouch(w, s, Teardown(s, tid, t.epoch, t.runId, t.rpc, a), tid);
  }

  lemma TornSaveVouches(w: Wiring, s: Sys, tid: nat, a: Answer)
    requires Inv(w, s) && Vouched(w, s) && tid in s.threads && s.threads[tid].Tearing?
    requires var rpc := s.threads[tid].rpc; rpc.ResetTailSave?
    ensures var t := s.threads[tid]; Vouched(w, Teardown(s, tid, t.epoch, t.runId, t.rpc, a))
  {
    var t := s.threads[tid];
    OthersVouch(w, s, Teardown(s, tid, t.epoch, t.runId, t.rpc, a), tid);
  }

  lemma ReleasedVouches(w: Wiring, s: Sys, tid: nat, a: Answer)
    requires Inv(w, s) && Vouched(w, s) && tid in s.threads && s.threads[tid].Tearing?
    requires var rpc := s.threads[tid].rpc; rpc.DeleteRecord? || rpc.Release?
    ensures var t := s.threads[tid]; Vouched(w, Teardown(s, tid, t.epoch, t.runId, t.rpc, a))
  {
    var t := s.threads[tid];
    OthersVouch(w, s, Teardown(s, tid, t.epoch, t.runId, t.rpc, a), tid);
  }

  lemma TailVouches(w: Wiring, s: Sys, tid: nat, a: Answer)
    requires Inv(w, s) && Vouched(w, s) && tid in s.threads && s.threads[tid].Executing?
    requires var pc := s.threads[tid].pc; pc.TailClear? || pc.TailSave?
    ensures Vouched(w, Execute(w, s, tid, s.threads[tid].epoch, s.threads[tid].pc, a))
  {
    OthersVouch(w, s, Execute(w, s, tid, s.threads[tid].epoch, s.threads[tid].pc, a), tid);
  }

  lemma ClosingVouches(w: Wiring, s: Sys, tid: nat, a: Answer)
    requires Inv(w, s) && Vouched(w, s) && tid in s.threads && s.threads[tid].Closing?
    ensures Vouched(w, Window(w, s, tid, s.threads[tid], a))
  {
    OthersVouch(w, s, Window(w, s, tid, s.threads[tid], a), tid);
  }

  /** A failed launch puts back a run whose decisions were kept. */
  lemma UndoneVouches(w: Wiring, s: Sys, s': Sys, tid: nat)
    requires Inv(w, s) && Vouched(w, s) && tid in s.threads && s.threads[tid].Undoing?
    requires s'.threads == s.threads[tid := Closing(s.threads[tid].epoch)] && !CurrentLive(s')
    requires s'.h.accepted == s.h.accepted && s'.h.durable == s.h.durable
    requires s'.eng.current.Some? ==> Vouches(s.h, s'.eng.current.value)
    ensures Vouched(w, s')
  {
    forall u | u in s'.threads
      ensures ThreadVouches(s'.h, s'.threads[u])
    {
    }
  }

  lemma UndoStartVouches(w: Wiring, s: Sys, tid: nat, a: Answer)
    requires Inv(w, s) && Vouched(w, s) && tid in s.threads && s.threads[tid].Undoing? && s.threads[tid].how.ByStart?
    ensures Vouched(w, Window(w, s, tid, s.threads[tid], a))
  {
    hide Inv, Vouched;
    DriverKnows(w, s, tid);
    UndoneVouches(w, s, Window(w, s, tid, s.threads[tid], a), tid);
  }

  lemma UndoRetryVouches(w: Wiring, s: Sys, tid: nat, a: Answer)
    requires Inv(w, s) && Vouched(w, s) && tid in s.threads && s.threads[tid].Undoing? && s.threads[tid].how.ByRetry?
    ensures Vouched(w, Window(w, s, tid, s.threads[tid], a))
  {
    hide Inv, Vouched;
    DriverKnows(w, s, tid);
    UndoneVouches(w, s, Window(w, s, tid, s.threads[tid], a), tid);
  }

  lemma UndoResetVouches(w: Wiring, s: Sys, tid: nat, a: Answer)
    requires Inv(w, s) && Vouched(w, s) && tid in s.threads && s.threads[tid].Undoing? && s.threads[tid].how.ByReset?
    ensures Vouched(w, Window(w, s, tid, s.threads[tid], a))
  {
    hide Inv, Vouched;
    DriverKnows(w, s, tid);
    UndoneVouches(w, s, Window(w, s, tid, s.threads[tid], a), tid);
  }

  // ---- Decide, Discard, Stop ----

  lemma DecideSaveVouches(w: Wiring, s: Sys, tid: nat, a: Answer)
    requires Inv(w, s) && Vouched(w, s) && tid in s.threads && s.threads[tid].Deciding? &&
             s.threads[tid].dpc.DecideSaving?
    ensures var t := s.threads[tid]; Vouched(w, Decision(s, tid, t.epoch, t.runId, t.prev, t.dpc, a))
  {
    var t := s.threads[tid];
    OthersVouch(w, s, Decision(s, tid, t.epoch, t.runId, t.prev, t.dpc, a), tid);
  }

  /** The Decide in flight ends: no other one is, so only the driver's promise has to be met. */
  lemma DecideEndsVouched(w: Wiring, s: Sys, s': Sys, tid: nat)
    requires Inv(w, s) && Vouched(w, s) && OnlyMoves(s, s', tid) && s.threads[tid].Deciding? && tid !in s'.threads
    requires s'.h == s.h && s.threads[tid].epoch == s.eng.epoch && CurrentLive(s) == CurrentLive(s')
    requires s'.eng.current.Some? && Vouches(s.h, s'.eng.current.value)
    ensures Vouched(w, s')
  {
    assert CallOk(ViewOf(w, s), tid, s.threads[tid]);
    forall u | u in s'.threads
      ensures u in s.threads && s'.threads[u] == s.threads[u] && ThreadVouches(s'.h, s'.threads[u])
      ensures CurrentLive(s') ==> DecideVouches(s', s'.threads[u])
    {
      Untouched(s, s', tid, u);
      assert CallOk(ViewOf(w, s), u, s.threads[u]);
    }
  }

  lemma DecideUndoVouches(w: Wiring, s: Sys, tid: nat, a: Answer)
    requires Inv(w, s) && Vouched(w, s) && tid in s.threads && s.threads[tid].Deciding? &&
             s.threads[tid].dpc.DecideUndoing?
    ensures var t := s.threads[tid]; Vouched(w, Decision(s, tid, t.epoch, t.runId, t.prev, t.dpc, a))
  {
    var t := s.threads[tid];
    var s' := Decision(s, tid, t.epoch, t.runId, t.prev, t.dpc, a);
    assert CallOk(ViewOf(w, s), tid, t);
    if s'.eng == s.eng {
      OthersVouch(w, s, s', tid);
    } else {
      DecideEndsVouched(w, s, s', tid);
    }
  }

  lemma DecideSignalVouches(w: Wiring, s: Sys, tid: nat, a: Answer)
    requires Inv(w, s) && Vouched(w, s) && tid in s.threads && s.threads[tid].Deciding? &&
             s.threads[tid].dpc.DecideSignalling?
    ensures var t := s.threads[tid]; Vouched(w, Decision(s, tid, t.epoch, t.runId, t.prev, t.dpc, a))
  {
    var t := s.threads[tid];
    var s' := Decision(s, tid, t.epoch, t.runId, t.prev, t.dpc, a);
    assert CallOk(ViewOf(w, s), tid, t);
    if t.epoch == s.eng.epoch && CurrentLive(s) {
      DecideEndsVouched(w, s, s', tid);
    } else {
      forall u | u in s'.threads
        ensures u in s.threads && s'.threads[u] == s.threads[u]
      {
        Untouched(s, s', tid, u);
      }
    }
  }

  lemma DiscardingVouches(w: Wiring, s: Sys, tid: nat, a: Answer)
    requires Inv(w, s) && Vouched(w, s) && tid in s.threads && s.threads[tid].Discarding?
    ensures Vouched(w, Move(w, s, tid, a))
  {
    assert CallOk(ViewOf(w, s), tid, s.threads[tid]);
    OthersVouch(w, s, Move(w, s, tid, a), tid);
  }

  lemma StoppingVouches(w: Wiring, s: Sys, tid: nat, a: Answer)
    requires Inv(w, s) && Vouched(w, s) && tid in s.threads && s.threads[tid].Stopping?
    requires var spc := s.threads[tid].spc; spc.StopEnsure? || spc.StopRecording? || spc.StopFinish?
    ensures var t := s.threads[tid]; Vouched(w, Stop(s, tid, t.epoch, t.runId, t.spc, a))
  {
    var t := s.threads[tid];
    assert CallOk(ViewOf(w, s), tid, t);
    OthersVouch(w, s, Stop(s, tid, t.epoch, t.runId, t.spc, a), tid);
  }

  lemma StopTailVouches(w: Wiring, s: Sys, tid: nat, a: Answer)
    requires Inv(w, s) && Vouched(w, s) && tid in s.threads && s.threads[tid].Stopping?
    requires var spc := s.threads[tid].spc; spc.StopTailClear? || spc.StopTailSave? || spc.StopRelease?
    ensures var t := s.threads[tid]; Vouched(w, Stop(s, tid, t.epoch, t.runId, t.spc, a))
  {
    var t := s.threads[tid];
    OthersVouch(w, s, Stop(s, tid, t.epoch, t.runId, t.spc, a), tid);
  }

  lemma WaitReleasedVouches(w: Wiring, s: Sys)
    requires Vouched(w, s)
    ensures Vouched(w, s.(h := s.h.(released := true)))
  {
    assert ViewOf(w, s.(h := s.h.(released := true))) == ViewOf(w, s);
  }

  lemma CancellingVouches(w: Wiring, s: Sys, tid: nat, a: Answer)
    requires Inv(w, s) && Vouched(w, s) && tid in s.threads && s.threads[tid].Cancelling?
    ensures Vouched(w, Move(w, s, tid, a))
  {
    hide Inv, Vouched, Move, ThreadVouches, DecideVouches;
    CancellingShape(w, s, tid, a);
    OthersVouch(w, s, Drop(s, tid), tid);
    WaitReleasedVouches(w, Drop(s, tid));
  }

  // ---- API calls ----

  lemma StartCallVouches(w: Wiring, s: Sys, ev: Event)
    requires Inv(w, s) && Vouched(w, s) && ev.CallStart?
    ensures Vouched(w, Call(w, s, ev))
  {
    var s' := Call(w, s, ev);
    if s' != s {
      assert !CurrentLive(s) && !s.eng.draining;
      forall u | u in s'.threads
        ensures ThreadVouches(s'.h, s'.threads[u]) && DecideVouches(s', s'.threads[u])
      {
      }
    }
  }

  lemma RelaunchCallVouches(w: Wiring, s: Sys, ev: Event)
    requires Inv(w, s) && Vouched(w, s) && (ev.CallRetry? || ev.CallReset?)
    ensures Vouched(w, Call(w, s, ev))
  {
    var s' := Call(w, s, ev);
    if s' != s {
      assert !CurrentLive(s) && !s.eng.draining;
      forall u | u in s'.threads
        ensures ThreadVouches(s'.h, s'.threads[u]) && DecideVouches(s', s'.threads[u])
      {
      }
    }
  }

  lemma DecideCallVouches(w: Wiring, s: Sys, tid: nat, runId: string, decisions: map<string, string>, now: nat)
    requires Inv(w, s) && Vouched(w, s)
    ensures Vouched(w, Call(w, s, CallDecide(tid, runId, decisions, now)))
  {
    var s' := Call(w, s, CallDecide(tid, runId, decisions, now));
    if s' != s {
      assert DriverOk(ViewOf(w, s), OwnerOf(s));
      assert OwnerOf(s') == OwnerOf(s);
      forall u | u in s'.threads && u != tid
        ensures ThreadVouches(s'.h, s'.threads[u]) && DecideVouches(s', s'.threads[u])
      {
        assert CallOk(ViewOf(w, s), u, s.threads[u]);
      }
    }
  }

  lemma DiscardCallVouches(w: Wiring, s: Sys, ev: Event)
    requires Inv(w, s) && Vouched(w, s) && ev.CallDiscard?
    ensures Vouched(w, Call(w, s, ev))
  {
    var s' := Call(w, s, ev);
    forall u | u in s'.threads
      ensures ThreadVouches(s'.h, s'.threads[u])
    {
    }
  }

  lemma StopCallVouches(w: Wiring, s: Sys, ev: Event)
    requires Inv(w, s) && Vouched(w, s) && ev.CallStop?
    ensures Vouched(w, Call(w, s, ev))
  {
    hide Inv, Kept, Asked;
    var s' := Call(w, s, ev);
    forall u | u in s'.threads
      ensures ThreadVouches(s'.h, s'.threads[u])
    {
    }
  }

  lemma CancelCallVouches(w: Wiring, s: Sys, ev: Event)
    requires Inv(w, s) && Vouched(w, s) && ev.CallCancel?
    ensures Vouched(w, Call(w, s, ev))
  {
    var s' := Call(w, s, ev);
    forall u | u in s'.threads
      ensures ThreadVouches(s'.h, s'.threads[u])
    {
    }
  }

  // ---- every event keeps the promise ----

  lemma ExecuteVouches(w: Wiring, s: Sys, tid: nat, a: Answer)
    requires Inv(w, s) && Vouched(w, s) && tid in s.threads && s.threads[tid].Executing?
    ensures Vouched(w, Execute(w, s, tid, s.threads[tid].epoch, s.threads[tid].pc, a))
  {
    match s.threads[tid].pc
    case Top => TopVouches(w, s, tid, a);
    case Await(_) => AwaitVouches(w, s, tid, a);
    case AwaitSave(_, _, _) => AwaitSaveVouches(w, s, tid, a);
    case Park(_, _) => if a.ok { WokenVouches(w, s, tid, a); } else { CutVouches(w, s, tid, a); }
    case Begin(_) => BeginVouches(w, s, tid, a);
    case BeginSave(_, _) => BeginVouches(w, s, tid, a);
    case Stepping(_, _, _) => StepVouches(w, s, tid, a);
    case MergeFail(_, _, _) => MergeFailVouches(w, s, tid, a);
    case FailClear(_) => MergeFailVouches(w, s, tid, a);
    case MergeOk(_, _) => MergeOkVouches(w, s, tid, a);
    case OkClear(_, _) => OkVouches(w, s, tid, a);
    case OkSave(_) => OkVouches(w, s, tid, a);
    case Finish(_) => FinishVouches(w, s, tid, a);
    case TailClear(_) => TailVouches(w, s, tid, a);
    case TailSave(_) => TailVouches(w, s, tid, a);
  }

  lemma TearingVouches(w: Wiring, s: Sys, tid: nat, a: Answer)
    requires Inv(w, s) && Vouched(w, s) && tid in s.threads && s.threads[tid].Tearing?
    ensures var t := s.threads[tid]; Vouched(w, Teardown(s, tid, t.epoch, t.runId, t.rpc, a))
  {
    match s.threads[tid].rpc
    case ResetTailClear(_, _) => TornClearVouches(w, s, tid, a);
    case ResetTailSave(_, _) => TornSaveVouches(w, s, tid, a);
    case DeleteRecord => ReleasedVouches(w, s, tid, a);
    case Release => ReleasedVouches(w, s, tid, a);
    case Record(_, _) => RecordVouches(w, s, tid, a);
    case Review(_) => RecordVouches(w, s, tid, a);
    case ResetFinish(_) => ResetFinishVouches(w, s, tid, a);
    case _ => LookVouches(w, s, tid, a);
  }

  lemma MoveVouches(w: Wiring, s: Sys, tid: nat, a: Answer)
    requires Inv(w, s) && Vouched(w, s) && tid in s.threads
    ensures Vouched(w, Move(w, s, tid, a))
  {
    match s.threads[tid]
    case Launching(_, _, _) => LaunchVouches(w, s, tid, a);
    case Undoing(_, how, _) =>
      if how.ByStart? { UndoStartVouches(w, s, tid, a); }
      else if how.ByRetry? { UndoRetryVouches(w, s, tid, a); }
      else { UndoResetVouches(w, s, tid, a); }
    case Closing(_) => ClosingVouches(w, s, tid, a);
    case Executing(_, _) => ExecuteVouches(w, s, tid, a);
    case Tearing(_, _, _) => TearingVouches(w, s, tid, a);
    case Deciding(_, _, _, dpc) =>
      if dpc.DecideSaving? { DecideSaveVouches(w, s, tid, a); }
      else if dpc.DecideUndoing? { DecideUndoVouches(w, s, tid, a); }
      else { DecideSignalVouches(w, s, tid, a); }
    case Discarding(_, _, _) => DiscardingVouches(w, s, tid, a);
    case Stopping(_, _, spc) =>
      if spc.StopEnsure? || spc.StopRecording? || spc.StopFinish? { StoppingVouches(w, s, tid, a); }
      else { StopTailVouches(w, s, tid, a); }
    case Cancelling(_) => CancellingVouches(w, s, tid, a);
  }

  lemma UnseenVouches(w: Wiring, s: Sys, ev: Event)
    requires Vouched(w, s) && (ev.Mark? || ev.Vanish?)
    ensures Vouched(w, Next(w, s, ev))
  {
    var s' := Next(w, s, ev);
    assert ViewOf(w, s') == ViewOf(w, s);
  }

  lemma NextVouches(w: Wiring, s: Sys, ev: Event)
    requires Inv(w, s) && Vouched(w, s)
    ensures Vouched(w, Next(w, s, ev))
  {
    hide Inv, Vouched, Move, Call, Marked;
    match ev
    case Advance(tid, a) => if tid in s.threads { MoveVouches(w, s, tid, a); }
    case CallStart(_, _, _) => StartCallVouches(w, s, ev);
    case CallRetry(_, _, _) => RelaunchCallVouches(w, s, ev);
    case CallReset(_, _, _, _, _) => RelaunchCallVouches(w, s, ev);
    case CallDecide(tid, runId, decisions, now) => DecideCallVouches(w, s, tid, runId, decisions, now);
    case CallDiscard(_, _) => DiscardCallVouches(w, s, ev);
    case Mark(_, _, _, _) => UnseenVouches(w, s, ev);
    case Vanish(_) => UnseenVouches(w, s, ev);
    case CallStop(_, _, _) => StopCallVouches(w, s, ev);
    case CallCancel(_) => CancelCallVouches(w, s, ev);
  }
}
