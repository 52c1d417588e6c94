/**
 * The engine as a state machine: API calls and background goroutines are threads, every hold of
 * the engine mutex is one atomic step, and Store and cluster calls (each of which may fail) are
 * steps of their own between the holds. An event names the thread that moves and how the outside
 * world answers it, so a sequence of events is an arbitrary interleaving. An event that is not
 * enabled leaves the state as it is.
 */
module Machine {
  import opened Wrappers
  import opened Runs
  import opened EngineSpec

  /** What launched an epoch, with what its rollback restores. */
  datatype Launch = ByStart(previous: Option<Run>) | ByRetry(prev: (string, bool)) | ByReset

  /** The call a running step is blocked in: Prove's cluster calls one by one, any other step as one. */
  datatype StepCall = Whole | EnsureNamespace | CreateJob | AwaitGang | DeleteJob | WaitAbsent

  /** Where an execute goroutine is. i is the step it is working on. */
  datatype Pc =
    | Top
    | Await(i: int)
    | AwaitSave(i: int, channel: nat, snapshot: Run)
    | Park(i: int, channel: nat)
    | Begin(i: int)
    | BeginSave(i: int, scratch: Run)
    | Stepping(i: int, scratch: Run, call: StepCall)
    | MergeFail(i: int, scratch: Run, why: Failure)
    | FailClear(i: int)
    | MergeOk(i: int, scratch: Run)
    | OkClear(i: int, merged: Run)
    | OkSave(merged: Run)
    | Finish(state: State)
    | TailClear(snapshot: Run)
    | TailSave(snapshot: Run)

  /** Where a runReset goroutine is. */
  datatype ResetPc =
    | Look
    | Ensure(run: Run)
    | Uninstall(run: Run)
    | Record(residue: Residue, reached: bool)
    | Review(incomplete: bool)
    | ResetFinish(incomplete: bool)
    | ResetTailClear(snapshot: Run, clean: bool)
    | ResetTailSave(snapshot: Run, clean: bool)
    | DeleteRecord
    | Release

  datatype StopPc =
    | StopEnsure
    | StopRecording
    | StopFinish
    | StopTailClear(snapshot: Run)
    | StopTailSave(snapshot: Run)
    | StopRelease

  datatype DecidePc = DecideSaving(snapshot: Run) | DecideUndoing | DecideSignalling

  datatype Thread =
    | Launching(epoch: nat, how: Launch, snapshot: Run)
    | Undoing(epoch: nat, how: Launch, runId: string)
    | Closing(epoch: nat)
    | Executing(epoch: nat, pc: Pc)
    | Tearing(epoch: nat, runId: string, rpc: ResetPc)
    | Deciding(epoch: nat, runId: string, prev: Run, dpc: DecidePc)
    | Discarding(epoch: nat, gone: (Run, bool), failed: bool)
    | Stopping(epoch: nat, runId: string, spc: StopPc)
    | Cancelling(epoch: nat)

  /**
   * History: written by Next, read by nothing Next decides. ownerOf names the thread each epoch
   * belongs to, decider and discarder the last Decide and Discard accepted, slot the run last in
   * the current slot; used are the run IDs handed out; accepted and durable are the (run, key)
   * decisions taken at a gate and contained in a successful Save; completed are each run's
   * finished steps, which began at base; bundled is, for each run whose Bundle step finished here,
   * the bundle path that step wrote; recipes holds each run's recipe artifact once merged; released
   * says CancelAndWait returned nil; lost are the runs whose workload is still there though a failed
   * Reset checkpoint dropped its guard.
   */
  datatype History = History(
    ownerOf: map<nat, nat>, decider: nat, discarder: nat, slot: string, used: set<string>,
    accepted: set<(string, string)>, durable: set<(string, string)>,
    completed: map<string, seq<int>>, base: map<string, int>, bundled: map<string, Bytes>,
    recipes: map<string, Bytes>, released: bool, lost: set<string>)

  /**
   * canceled and closed are the epochs whose context was canceled and whose done channel was
   * closed; workloads the run IDs whose reference workload is in the cluster; panicked a nil
   * dereference or a second close.
   */
  datatype Sys = Sys(eng: Eng, threads: map<nat, Thread>, canceled: set<nat>, closed: set<nat>,
                     workloads: set<string>, panicked: bool, h: History)

  datatype Event =
    | CallStart(tid: nat, id: string, now: nat)
    | CallRetry(tid: nat, runId: string, now: nat)
    | CallReset(tid: nat, runId: string, proverReady: bool, hasTeardown: bool, now: nat)
    | CallDecide(tid: nat, runId: string, decisions: map<string, string>, now: nat)
    | CallDiscard(tid: nat, runId: string)
    | CallStop(tid: nat, runId: string, proverReady: bool)
    | CallCancel(tid: nat)
    | Advance(tid: nat, a: Answer)
    | Mark(tid: nat, name: string, index: int, total: int)
    | Vanish(runId: string)

  /**
   * How the world answers the call a thread is blocked in: whether it succeeded, whether a
   * workload landed, what the step left in its scratch copy, what the teardown reported.
   */
  datatype Answer = Answer(ok: bool, landed: bool, scratch: Run, items: seq<ResidueItem>, msg: string, now: nat)

  const RECIPE := "recipe.json"
  const BUNDLE_PATH := "bundle.path"

  // ---- threads that own an epoch, and the ones still driving its run ----

  predicate Owner(t: Thread) {
    t.Launching? || t.Undoing? || t.Closing? || t.Executing? || t.Tearing?
  }

  /** A driver: launched or inside its save window, and not yet past its terminal hold. */
  predicate Driver(t: Thread) {
    match t
    case Launching(_, _, _) => true
    case Undoing(_, _, _) => true
    case Executing(_, pc) => !pc.TailClear? && !pc.TailSave?
    case Tearing(_, _, rpc) => rpc.Look? || rpc.Ensure? || rpc.Uninstall? || rpc.Record? || rpc.Review? ||
      rpc.ResetFinish?
    case _ => false
  }

  // ---- state updates ----

  function Put(s: Sys, tid: nat, t: Thread): Sys { s.(threads := s.threads[tid := t]) }

  function At(s: Sys, tid: nat, epoch: nat, pc: Pc): Sys { Put(s, tid, Executing(epoch, pc)) }

  function TearAt(s: Sys, tid: nat, epoch: nat, runId: string,
    rpc: ResetPc): Sys { Put(s, tid, Tearing(epoch, runId, rpc)) }

  function StopAt(s: Sys, tid: nat, epoch: nat, runId: string,
    spc: StopPc): Sys { Put(s, tid, Stopping(epoch, runId, spc)) }

  function Drop(s: Sys, tid: nat): Sys { s.(threads := s.threads - {tid}) }

  function Panic(s: Sys): Sys { s.(panicked := true) }

  function Keys(r: Run): set<(string, string)> { set k | k in r.decisions :: (r.id, k) }

  /** A Save of r: on success its decisions have been durable. */
  function Saved(s: Sys, r: Run, ok: bool): Sys {
    if ok then s.(h := s.h.(durable := s.h.durable + Keys(r))) else s
  }

  // ---- API calls: the first hold of each ----

  function Call(w: Wiring, s: Sys, ev: Event): Sys
    requires !ev.Advance? && !ev.Mark? && !ev.Vanish?
  {
    if ev.tid in s.threads then s else
    match ev
    case CallStart(tid, id, now) =>
      if id in s.h.used then s else
      (match StartHold(s.eng, w, id, now)
       case Went(e, previous) =>
         var h := s.h.(ownerOf := s.h.ownerOf[e.epoch := tid], slot := id, used := s.h.used + {id},
                       completed := s.h.completed[id := []], base := s.h.base[id := 0]);
         Put(s.(eng := e, h := h), tid, Launching(e.epoch, ByStart(previous), e.current.value))
       case _ => s)
    case CallRetry(tid, runId, now) =>
      (match RetryHold(s.eng, runId, now)
       case Went(e, prev) =>
         var h := s.h.(ownerOf := s.h.ownerOf[e.epoch := tid]);
         Put(s.(eng := e, h := h), tid, Launching(e.epoch, ByRetry(prev), e.current.value))
       case _ => s)
    case CallReset(tid, runId, proverReady, hasTeardown, now) =>
      (match ResetHold(s.eng, w, runId, proverReady, hasTeardown, now)
       case Went(e, _) =>
         var h := s.h.(ownerOf := s.h.ownerOf[e.epoch := tid]);
         Put(s.(eng := e, h := h), tid, Launching(e.epoch, ByReset, e.current.value))
       case _ => s)
    case CallDecide(tid, runId, decisions, now) =>
      (match DecideHold(s.eng, runId, decisions, now)
       case Went(e, prev) =>
         var h := s.h.(decider := tid, accepted := s.h.accepted + set k | k in decisions :: (runId, k));
         Put(s.(eng := e, h := h), tid, Deciding(e.epoch, runId, prev, DecideSaving(e.current.value)))
       case _ => s)
    case CallDiscard(tid, runId) =>
      (match DiscardHold(s.eng, runId)
       case Went(e, gone) => Put(s.(eng := e, h := s.h.(discarder := tid)), tid, Discarding(e.epoch, gone, false))
       case _ => s)
    case CallStop(tid, runId, proverReady) =>
      if StopRefusal(s.eng, runId, proverReady).Some? then s
      else Put(s, tid, Stopping(s.eng.epoch, runId, StopEnsure))
    case CallCancel(tid) =>
      var s1 := s.(eng := s.eng.(draining := true));
      match s.eng.handle
      case None => s1.(h := s.h.(released := true))
      case Some(h) => Put(s1.(canceled := s.canceled + {h}), tid, Cancelling(h))
  }

  // ---- the next action of a thread ----

  /** Start's, Retry's and Reset's Save window. */
  function Window(w: Wiring, s: Sys, tid: nat, t: Thread, a: Answer): Sys
    requires t.Launching? || t.Undoing? || t.Closing?
  {
    match t
    case Launching(epoch, how, snapshot) =>
      if !a.ok then Put(s, tid, Undoing(epoch, how, snapshot.id))
      else Put(Saved(s, snapshot, true), tid,
               if how.ByReset? then Tearing(epoch, snapshot.id, Look) else Executing(epoch, Top))
    case Undoing(epoch, how, runId) =>
      var s1 :=
        match how
        case ByStart(previous) =>
          var e := StartUndo(s.eng, epoch, runId, previous);
          s.(eng := e, h := s.h.(slot := if e.current.Some? then e.current.value.id else s.h.slot))
        case ByRetry(prev) => s.(eng := RetryUndo(s.eng, epoch, runId, prev, a.now))
        case ByReset =>
          s.(eng := ResetUndo(s.eng, epoch, runId, a.now),
             h := if runId in s.workloads && Holds(s.eng, runId) && !s.eng.current.value.cleanupUnconfirmed
                  then s.h.(lost := s.h.lost + {runId}) else s.h);
      Put(s1, tid, Closing(epoch))
    case Closing(epoch) =>
      if epoch in s.closed then Panic(s) else Drop(s.(closed := s.closed + {epoch}), tid)
  }

  /**
   * What a step may leave in its scratch copy: anything but decisions, with recipe.json written by
   * Recommend alone and bundle.path by Bundle alone, which never succeeds without it.
   */
  predicate StepWrites(step: StepSpec, before: Run, after: Run, ok: bool) {
    && after.id == before.id
    && after.decisions == before.decisions
    && (RECIPE in after.artifacts && step.phase != Recommend ==>
          RECIPE in before.artifacts && after.artifacts[RECIPE] == before.artifacts[RECIPE])
    && (BUNDLE_PATH in after.artifacts && step.phase != Bundle ==>
          BUNDLE_PATH in before.artifacts && after.artifacts[BUNDLE_PATH] == before.artifacts[BUNDLE_PATH])
    && (ok && step.phase == Bundle ==> BUNDLE_PATH in after.artifacts)
  }

  /** A running step. Only CreateJob adds a workload; it may land whatever the client sees. */
  function RunStep(w: Wiring, s: Sys, tid: nat, epoch: nat, i: int, scratch: Run, call: StepCall, a: Answer): Sys {
    match call
    case Whole =>
      if !(0 <= i < |w.steps|) || !StepWrites(w.steps[i], scratch, a.scratch, a.ok) then s
      else At(s, tid, epoch, if a.ok then MergeOk(i, a.scratch) else MergeFail(i, a.scratch, Plain))
    case EnsureNamespace =>
      At(s, tid, epoch, if a.ok then Stepping(i, scratch, CreateJob) else MergeFail(i, scratch, Plain))
    case CreateJob =>
      At(if a.landed then s.(workloads := s.workloads + {scratch.id},
        h := s.h.(lost := s.h.lost - {scratch.id})) else s,
         tid, epoch,
         Stepping(i, scratch, if a.ok then AwaitGang else DeleteJob))
    case AwaitGang =>
      At(s, tid, epoch, if a.ok then MergeOk(i, scratch.(workload := WorkloadOf(scratch.id))) else Stepping(i, scratch,
        DeleteJob))
    case DeleteJob =>
      At(s, tid, epoch, if a.ok then Stepping(i, scratch, WaitAbsent) else MergeFail(i, scratch, Unconfirmed))
    case WaitAbsent =>
      if a.ok && scratch.id in s.workloads then s
      else At(s, tid, epoch, MergeFail(i, scratch, if a.ok then Confirmed else Unconfirmed))
  }

  /** execute, awaitDecisions, runStep and finish. */
  function Execute(w: Wiring, s: Sys, tid: nat, epoch: nat, pc: Pc, a: Answer): Sys {
    var quit := Put(s, tid, Closing(epoch));
    match pc
    case Top =>
      (match TopHold(s.eng, epoch)
       case Went(_, i) => if i >= |w.steps| then At(s, tid, epoch, Finish(TerminalState(w.steps))) else At(s, tid,
         epoch, Await(i))
       case Crash => Panic(s)
       case _ => quit)
    case Await(i) =>
      if !(0 <= i < |w.steps|) then Panic(s) else
      (match AwaitHold(s.eng, epoch, w.steps[i], a.now)
       case Went(e, Open) => At(s, tid, epoch, Begin(i))
       case Went(e, Parked(channel, snapshot)) => At(s.(eng := e), tid, epoch, AwaitSave(i, channel, snapshot))
       case Crash => Panic(s)
       case _ => quit)
    case AwaitSave(i, channel, snapshot) => At(Saved(s, snapshot, a.ok), tid, epoch, Park(i, channel))
    case Park(i, channel) =>
      if a.ok then
        if channel in s.eng.full then At(s.(eng := TakeToken(s.eng, channel)), tid, epoch, Await(i)) else s
      else if epoch in s.canceled then At(s, tid, epoch, Finish(Failed)) else s
    case Begin(i) =>
      if !(0 <= i < |w.steps|) then Panic(s) else
      (match BeginHold(s.eng, epoch, w.steps[i], a.now)
       case Went(e, scratch) => At(s.(eng := e), tid, epoch, BeginSave(i, scratch))
       case Crash => Panic(s)
       case _ => At(s, tid, epoch, Top))
    case BeginSave(i, scratch) =>
      if !(0 <= i < |w.steps|) then Panic(s)
      else At(Saved(s, scratch, a.ok), tid, epoch,
              Stepping(i, scratch, if w.steps[i].phase == Prove then EnsureNamespace else Whole))
    case MergeFail(i, scratch, why) =>
      (match FailMerge(s.eng, epoch, scratch, why)
       case Went(e, _) => At(s.(eng := e), tid, epoch, FailClear(i))
       case _ => Panic(s))
    case FailClear(i) =>
      var e := if 0 <= i < |w.steps| && w.steps[i].phase == Apply then ClearAction(s.eng, epoch) else s.eng;
      At(s.(eng := e), tid, epoch, Finish(Failed))
    case MergeOk(i, scratch) =>
      (match OkMerge(s.eng, epoch, scratch, i, a.now)
       case Went(e, merged) => At(s.(eng := e, h := Completed(w, s.h, merged, i)), tid, epoch, OkClear(i, merged))
       case Crash => Panic(s)
       case _ => At(s, tid, epoch, Top))
    case OkClear(i, merged) =>
      var e := if 0 <= i < |w.steps| && w.steps[i].phase == Apply then ClearAction(s.eng, epoch) else s.eng;
      At(s.(eng := e), tid, epoch, OkSave(merged))
    case OkSave(merged) => At(Saved(s, merged, a.ok), tid, epoch, Top)
    case Finish(state) =>
      (match FinishHold(s.eng, epoch, state, a.msg, a.now)
       case Went(e, snapshot) => At(s.(eng := e), tid, epoch, TailClear(snapshot))
       case _ => quit)
    case TailClear(snapshot) => At(s.(eng := ClearAction(s.eng, epoch)), tid, epoch, TailSave(snapshot))
    case TailSave(snapshot) => Put(Saved(s, snapshot, a.ok), tid, Closing(epoch))
    case Stepping(i, scratch, call) => RunStep(w, s, tid, epoch, i, scratch, call, a)
  }

  function Completed(w: Wiring, h: History, merged: Run, i: int): History {
    var before := if merged.id in h.completed then h.completed[merged.id] else [];
    h.(completed := h.completed[merged.id := before + [i]],
       bundled := if 0 <= i < |w.steps| && w.steps[i].phase == Bundle && BUNDLE_PATH in merged.artifacts
                  then h.bundled[merged.id := merged.artifacts[BUNDLE_PATH]] else h.bundled,
       recipes := if RECIPE in merged.artifacts then h.recipes[merged.id := merged.artifacts[RECIPE]] else h.recipes)
  }

  predicate AnyFailed(items: seq<ResidueItem>) { exists i :: 0 <= i < |items| && items[i].err != "" }

  /** runReset. Its deferred cancel runs just before its deferred close. */
  function Teardown(s: Sys, tid: nat, epoch: nat, runId: string, rpc: ResetPc, a: Answer): Sys {
    var quit := Put(s.(canceled := s.canceled + {epoch}), tid, Closing(epoch));
    match rpc
    case Look =>
      (match SnapshotRun(s.eng, epoch, runId)
       case None => quit
       case Some(run) => TearAt(s, tid, epoch, runId, Ensure(run)))
    case Ensure(run) =>
      if !a.ok then TearAt(s, tid, epoch, runId, Record(Residue(true, []), false))
      else if runId in s.workloads then s
      else TearAt(s, tid, epoch, runId, Uninstall(run))
    case Uninstall(run) => TearAt(s, tid, epoch, runId,
      Record(Residue(epoch in s.canceled || AnyFailed(a.items), a.items), true))
    case Record(residue, reached) =>
      Put(s.(eng := RecordResidue(s.eng, epoch, runId, residue, a.now)), tid,
          Tearing(epoch, runId, if reached then Review(residue.incomplete) else ResetFinish(true)))
    case Review(incomplete) =>
      (match SnapshotRun(s.eng, epoch, runId)
       case None => quit
       case Some(_) => TearAt(s, tid, epoch, runId, ResetFinish(incomplete)))
    case ResetFinish(incomplete) =>
      (match FinishHold(s.eng, epoch, if incomplete then Failed else Done, a.msg, a.now)
       case Went(e, snapshot) => TearAt(s.(eng := e), tid, epoch, runId, ResetTailClear(snapshot, !incomplete))
       case _ => if incomplete then quit else TearAt(s, tid, epoch, runId, DeleteRecord))
    case ResetTailClear(snapshot, clean) =>
      TearAt(s.(eng := ClearAction(s.eng, epoch)), tid, epoch, runId, ResetTailSave(snapshot, clean))
    case ResetTailSave(snapshot, clean) =>
      if clean then TearAt(Saved(s, snapshot, a.ok), tid, epoch, runId, DeleteRecord)
      else Put(Saved(s, snapshot, a.ok).(canceled := s.canceled + {epoch}), tid, Closing(epoch))
    case DeleteRecord => TearAt(s, tid, epoch, runId, Release)
    case Release => Put(s.(eng := ResetRelease(s.eng, epoch), canceled := s.canceled + {epoch}), tid, Closing(epoch))
  }

  /** Decide after its first hold. */
  function Decision(s: Sys, tid: nat, epoch: nat, runId: string, prev: Run, dpc: DecidePc, a: Answer): Sys {
    match dpc
    case DecideSaving(snapshot) =>
      Put(Saved(s, snapshot, a.ok), tid, Deciding(epoch, runId, prev, if a.ok then DecideSignalling else DecideUndoing))
    case DecideUndoing => Drop(s.(eng := DecideUndo(s.eng, epoch, runId, prev)), tid)
    case DecideSignalling => Drop(s.(eng := DecideSignal(s.eng, epoch, runId)), tid)
  }

  /** Stop after its first hold. */
  function Stop(s: Sys, tid: nat, epoch: nat, runId: string, spc: StopPc, a: Answer): Sys {
    match spc
    case StopEnsure =>
      if !a.ok then Drop(s, tid) else if runId in s.workloads then s else StopAt(s, tid, epoch, runId, StopRecording)
    case StopRecording => StopAt(s.(eng := StopRecord(s.eng, epoch, runId)), tid, epoch, runId, StopFinish)
    case StopFinish =>
      (match FinishHold(s.eng, epoch, Done, "", a.now)
       case Went(e, snapshot) => StopAt(s.(eng := e), tid, epoch, runId, StopTailClear(snapshot))
       case _ => StopAt(s, tid, epoch, runId, StopRelease))
    case StopTailClear(snapshot) => StopAt(s.(eng := ClearAction(s.eng, epoch)), tid, epoch, runId,
      StopTailSave(snapshot))
    case StopTailSave(snapshot) => StopAt(Saved(s, snapshot, a.ok), tid, epoch, runId, StopRelease)
    case StopRelease => Drop(s.(eng := s.eng.(recoveredPending := false)), tid)
  }

  function Move(w: Wiring, s: Sys, tid: nat, a: Answer): Sys
    requires tid in s.threads
  {
    match s.threads[tid]
    case Executing(epoch, pc) => Execute(w, s, tid, epoch, pc, a)
    case Tearing(epoch, runId, rpc) => Teardown(s, tid, epoch, runId, rpc, a)
    case Deciding(epoch, runId, prev, dpc) => Decision(s, tid, epoch, runId, prev, dpc, a)
    case Discarding(epoch, gone, failed) =>
      if failed then Drop(s.(eng := DiscardUndo(s.eng, epoch, gone)), tid)
      else if a.ok then Drop(s, tid)
      else Put(s, tid, Discarding(epoch, gone, true))
    case Stopping(epoch, runId, spc) => Stop(s, tid, epoch, runId, spc, a)
    case Cancelling(epoch) =>
      if !a.ok then Drop(s, tid)
      else if epoch !in s.closed then s
      else Drop(s.(h := s.h.(released := true)), tid)
    case t => Window(w, s, tid, t, a)
  }

  /** A component header published by a running Apply moves the cursor. */
  function Marked(w: Wiring, s: Sys, tid: nat, name: string, index: int, total: int): Sys {
    if tid in s.threads && s.threads[tid].Executing? && s.threads[tid].pc.Stepping? then
      var t := s.threads[tid];
      if 0 <= t.pc.i < |w.steps| && w.steps[t.pc.i].phase == Apply && name != ""
      then s.(eng := SetAction(s.eng, t.epoch, name, index, total)) else s
    else s
  }

  function Next(w: Wiring, s: Sys, ev: Event): Sys {
    match ev
    case Advance(tid, a) => if tid in s.threads then Move(w, s, tid, a) else s
    case Mark(tid, name, index, total) => Marked(w, s, tid, name, index, total)
    case Vanish(runId) => s.(workloads := s.workloads - {runId}, h := s.h.(lost := s.h.lost - {runId}))
    case _ => Call(w, s, ev)
  }

  /** The state after a whole interleaving. */
  function After(w: Wiring, s: Sys, evs: seq<Event>): Sys {
    if evs == [] then s else Next(w, After(w, s, evs[..|evs| - 1]), evs[|evs| - 1])
  }

  /** What the gate makes of the run: it parks it or lets it pass, and changes nothing else. */
  predicate GateOnly(s: Sys, s': Sys, tid: nat, epoch: nat) {
    && tid in s'.threads && s' == s.(eng := s.eng.(current := s'.eng.current),
      threads := s.threads[tid := s'.threads[tid]])
    && s'.threads[tid].Executing? && s'.threads[tid].epoch == epoch
    && (s'.threads[tid].pc.Begin? || s'.threads[tid].pc.AwaitSave?)
    && s.eng.current.Some? && s'.eng.current.Some?
    && var a, b := s.eng.current.value, s'.eng.current.value;
       b == a.(pending := b.pending, state := b.state, phase := b.phase, updatedAt := b.updatedAt) &&
       (b.state == a.state || b.state == AwaitingDecision)
  }

  lemma AwaitIsGate(w: Wiring, s: Sys, tid: nat, epoch: nat, i: int, a: Answer)
    requires tid in s.threads && Alive(s.eng, epoch) && s.eng.current.Some? && 0 <= i < |w.steps|
    ensures GateOnly(s, Execute(w, s, tid, epoch, Await(i), a), tid, epoch)
  {
    hide Missing;
  }

  // ---- what an event may write in the history ----

  predicate Merges(s: Sys, ev: Event) {
    ev.Advance? && ev.tid in s.threads && s.threads[ev.tid].Executing? && s.threads[ev.tid].pc.MergeOk?
  }

  predicate Remembers(a: History, b: History) {
    b.used == a.used && b.accepted == a.accepted && b.recipes == a.recipes && b.bundled == a.bundled &&
    (a.released ==> b.released)
  }

  lemma MergeRemembers(w: Wiring, s: Sys, tid: nat, epoch: nat, pc: Pc, a: Answer)
    requires tid in s.threads && pc.MergeOk?
    ensures var h := Execute(w, s, tid, epoch, pc, a).h;
            Remembers(s.h, h.(recipes := s.h.recipes, bundled := s.h.bundled))
  {
  }

  lemma EarlyRemembers(w: Wiring, s: Sys, tid: nat, epoch: nat, pc: Pc, a: Answer)
    requires tid in s.threads && (pc.Top? || pc.Await? || pc.AwaitSave? || pc.Park? || pc.Begin? || pc.BeginSave?)
    ensures Remembers(s.h, Execute(w, s, tid, epoch, pc, a).h)
  {
  }

  lemma LateRemembers(w: Wiring, s: Sys, tid: nat, epoch: nat, pc: Pc, a: Answer)
    requires tid in s.threads
    requires pc.Stepping? || pc.MergeFail? || pc.FailClear? || pc.OkClear? || pc.OkSave? || pc.Finish? ||
             pc.TailClear? || pc.TailSave?
    ensures Remembers(s.h, Execute(w, s, tid, epoch, pc, a).h)
  {
  }

  lemma ExecuteRemembers(w: Wiring, s: Sys, tid: nat, epoch: nat, pc: Pc, a: Answer)
    requires tid in s.threads
    ensures var h := Execute(w, s, tid, epoch, pc, a).h;
            Remembers(s.h, if pc.MergeOk? then h.(recipes := s.h.recipes, bundled := s.h.bundled) else h)
  {
    hide Execute;
    if pc.MergeOk? { MergeRemembers(w, s, tid, epoch, pc, a); }
    else if pc.Top? || pc.Await? || pc.AwaitSave? || pc.Park? || pc.Begin? || pc.BeginSave? {
      EarlyRemembers(w, s, tid, epoch, pc, a);
    } else { LateRemembers(w, s, tid, epoch, pc, a); }
  }

  lemma LookRemembers(s: Sys, tid: nat, epoch: nat, runId: string, rpc: ResetPc, a: Answer)
    requires tid in s.threads && (rpc.Look? || rpc.Ensure? || rpc.Uninstall?)
    ensures Remembers(s.h, Teardown(s, tid, epoch, runId, rpc, a).h)
  {
  }

  lemma RecordRemembers(s: Sys, tid: nat, epoch: nat, runId: string, rpc: ResetPc, a: Answer)
    requires tid in s.threads && (rpc.Record? || rpc.Review? || rpc.ResetFinish?)
    ensures Remembers(s.h, Teardown(s, tid, epoch, runId, rpc, a).h)
  {
  }

  lemma TailRemembers(s: Sys, tid: nat, epoch: nat, runId: string, rpc: ResetPc, a: Answer)
    requires tid in s.threads && (rpc.ResetTailClear? || rpc.ResetTailSave? || rpc.DeleteRecord? || rpc.Release?)
    ensures Remembers(s.h, Teardown(s, tid, epoch, runId, rpc, a).h)
  {
  }

  lemma TeardownRemembers(s: Sys, tid: nat, epoch: nat, runId: string, rpc: ResetPc, a: Answer)
    requires tid in s.threads
    ensures Remembers(s.h, Teardown(s, tid, epoch, runId, rpc, a).h)
  {
    hide Teardown;
    if rpc.Look? || rpc.Ensure? || rpc.Uninstall? { LookRemembers(s, tid, epoch, runId, rpc, a); }
    else if rpc.Record? || rpc.Review? || rpc.ResetFinish? { RecordRemembers(s, tid, epoch, runId, rpc, a); }
    else { TailRemembers(s, tid, epoch, runId, rpc, a); }
  }

  lemma StopRemembers(s: Sys, tid: nat, epoch: nat, runId: string, spc: StopPc, a: Answer)
    requires tid in s.threads
    ensures Remembers(s.h, Stop(s, tid, epoch, runId, spc, a).h)
  {
  }

  lemma MoveRemembers(w: Wiring, s: Sys, tid: nat, a: Answer)
    requires tid in s.threads && !s.threads[tid].Executing?
    ensures Remembers(s.h, Move(w, s, tid, a).h)
  {
    match s.threads[tid]
    case Tearing(epoch, runId, rpc) => TeardownRemembers(s, tid, epoch, runId, rpc, a);
    case Stopping(epoch, runId, spc) => StopRemembers(s, tid, epoch, runId, spc, a);
    case _ =>
  }

  lemma CallRemembers(w: Wiring, s: Sys, ev: Event)
    requires !ev.Advance? && !ev.Mark? && !ev.Vanish?
    ensures var h := Call(w, s, ev).h;
            && Remembers(s.h, match ev
                              case CallDecide(_, _, _, _) => h.(accepted := s.h.accepted)
                              case CallStart(_, _, _) => h.(used := s.h.used)
                              case _ => h)
            && (ev.CallStart? ==> h.used <= s.h.used + {ev.id})
  {
  }

  /**
   * Only Start uses up an ID, only an accepted Decide joins keys, only a merge writes an artifact;
   * a release is for good.
   */
  lemma NextRemembers(w: Wiring, s: Sys, ev: Event)
    ensures var h := Next(w, s, ev).h;
            && h.used <= s.h.used + (if ev.CallStart? then {ev.id} else {})
            && (!ev.CallDecide? ==> h.accepted == s.h.accepted)
            && (!Merges(s, ev) ==> h.recipes == s.h.recipes && h.bundled == s.h.bundled)
            && (s.h.released ==> h.released)
  {
    match ev
    case Advance(tid, a) =>
      if tid in s.threads {
        if s.threads[tid].Executing? {
          ExecuteRemembers(w, s, tid, s.threads[tid].epoch, s.threads[tid].pc, a);
        } else {
          MoveRemembers(w, s, tid, a);
        }
      }
    case Mark(_, _, _, _) =>
    case Vanish(_) =>
    case _ => CallRemembers(w, s, ev);
  }
}
