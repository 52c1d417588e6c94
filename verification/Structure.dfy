/**
 * The structural invariant of the machine: who owns which epoch, who drives the current run, and
 * what each in-flight call may still assume.
 */
module Structure {
  import opened Wrappers
  import opened Runs
  import opened EngineSpec
  import opened Machine

  predicate CurrentLive(s: Sys) { s.eng.current.Some? && IsLive(s.eng.current.value.state) }

  predicate AtGate(t: Thread) { t.Executing? && (t.pc.AwaitSave? || t.pc.Park?) }

  /** A goroutine on its way to record a failure. */
  predicate Cut(t: Thread) { t.Executing? && t.pc == Finish(Failed) }

  /** The thread the current epoch belongs to. */
  predicate HasOwner(s: Sys) { s.eng.epoch in s.h.ownerOf && s.h.ownerOf[s.eng.epoch] in s.threads }

  function OwnerOf(s: Sys): Thread
    requires HasOwner(s)
  {
    s.threads[s.h.ownerOf[s.eng.epoch]]
  }

  predicate DecideInFlight(s: Sys) {
    && s.h.decider in s.threads
    && s.threads[s.h.decider].Deciding?
    && s.threads[s.h.decider].epoch == s.eng.epoch
  }

  /** All that the per-thread invariants look at: equal views, equal obligations. */
  datatype View = View(current: Option<Run>, epoch: nat, resume: nat, token: bool, draining: bool,
                       decider: nat, discarder: nat, slot: string, inFlight: bool, gate: bool, cut: bool,
                         steps: Pipeline)
  {
    predicate Live() { current.Some? && IsLive(current.value.state) }
  }

  function ViewOf(w: Wiring, s: Sys): View {
    View(s.eng.current, s.eng.epoch, s.eng.resume, s.eng.resume in s.eng.full, s.eng.draining,
         s.h.decider, s.h.discarder, s.h.slot, DecideInFlight(s),
         HasOwner(s) && AtGate(OwnerOf(s)), HasOwner(s) && Cut(OwnerOf(s)), w.steps)
  }

  /** Every epoch number in sight is one already issued. */
  predicate Issued(s: Sys) {
    && s.eng.handle == (if s.eng.epoch == 0 then None else Some(s.eng.epoch))
    && s.eng.resume <= s.eng.epoch
    && (forall c :: c in s.eng.full ==> c <= s.eng.epoch)
    && (forall e :: e in s.closed ==> e <= s.eng.epoch)
    && (forall e :: e in s.canceled ==> e <= s.eng.epoch)
    && (forall tid :: tid in s.threads ==> s.threads[tid].epoch <= s.eng.epoch)
  }

  /** One owner per epoch, whose done channel is still open. */
  predicate Owned(s: Sys) {
    forall tid :: tid in s.threads && Owner(s.threads[tid]) ==>
      var e := s.threads[tid].epoch;
      1 <= e && e !in s.closed && e in s.h.ownerOf && s.h.ownerOf[e] == tid
  }

  /** A driver's epoch is the current one, and its run is live; a live run has a driver. */
  predicate Driven(w: Wiring, s: Sys) {
    && (forall tid :: tid in s.threads && Driver(s.threads[tid]) ==> DriverOk(ViewOf(w, s), s.threads[tid]))
    && (CurrentLive(s) ==> HasOwner(s) && Driver(OwnerOf(s)))
    && (CurrentLive(s) && s.eng.epoch in s.canceled ==> s.eng.draining)
  }

  /** Where a driver is, against the run it drives. */
  predicate DriverOk(v: View, t: Thread)
    requires Driver(t)
  {
    && t.epoch == v.epoch && v.Live()
    && match t
       case Launching(_, how, snapshot) => snapshot == v.current.value && LaunchOk(v, how)
       case Undoing(_, how, runId) => runId == v.current.value.id && LaunchOk(v, how)
       case Executing(_, pc) => IndexOk(v, pc) && ScratchOk(pc, v.current.value) && StateOk(v, t)
       case Tearing(_, runId, _) => v.current.value.state == Resetting && runId == v.current.value.id
  }

  /** Every key step i asks for is among the decisions, or else among the extra keys. */
  predicate Supplied(steps: Pipeline, i: int, decisions: map<string, string>, extra: seq<string>)
    requires 0 <= i < |steps|
  {
    forall k :: k in steps[i].requires_ ==> k in decisions || k in extra
  }

  /** The run's state and the wake-up token, by where an execute goroutine is. */
  predicate StateOk(v: View, t: Thread)
    requires t.Executing? && v.Live() && IndexOk(v, t.pc)
  {
    var r := v.current.value;
    if AtGate(t) then
      && t.pc.channel == v.resume
      && (if r.state == AwaitingDecision then !v.token && Supplied(v.steps, t.pc.i, r.decisions, r.pending)
          else r.state == Running && (v.token || v.inFlight) && Supplied(v.steps, t.pc.i, r.decisions, []))
    else if Cut(t) && v.draining then
      (r.state == AwaitingDecision && !v.token) || r.state == Running
    else r.state == Running && !v.token
  }

  predicate LaunchOk(v: View, how: Launch)
    requires v.Live()
  {
    match how
    case ByStart(previous) =>
      && v.current.value.state == Running && !v.token && v.current.value.stepIndex == 0
      && (previous.Some? ==> !IsLive(previous.value.state) && 0 <= previous.value.stepIndex)
    case ByRetry(_) => v.current.value.state == Running && !v.token
    case ByReset => v.current.value.state == Resetting
  }

  /** Past the gate and up to the merge: the step is under way. */
  predicate InsideStep(pc: Pc) {
    pc.Begin? || pc.BeginSave? || pc.Stepping? || pc.MergeFail? || pc.MergeOk?
  }

  /** The step a goroutine works on is the run's next one, and once it begins its keys are supplied. */
  predicate IndexOk(v: View, pc: Pc)
    requires v.Live()
  {
    && ((InsideStep(pc) || pc.Await? || pc.AwaitSave? || pc.Park? || pc.FailClear?) ==>
          pc.i == v.current.value.stepIndex && 0 <= pc.i < |v.steps|)
    && (InsideStep(pc) ==> Supplied(v.steps, pc.i, v.current.value.decisions, []))
    && (pc.Finish? ==> !IsLive(pc.state))
  }

  predicate ScratchOk(pc: Pc, r: Run) {
    (pc.BeginSave? || pc.Stepping? || pc.MergeFail? || pc.MergeOk?)
    ==> pc.scratch.id == r.id && pc.scratch.decisions == r.decisions
  }

  /** What the calls that are past their first hold may still assume while their epoch is current. */
  predicate CallsOk(w: Wiring, s: Sys) {
    && (s.eng.current.Some? ==> s.eng.current.value.id == s.h.slot && 0 <= s.eng.current.value.stepIndex)
    && (s.h.released ==> s.eng.draining && !CurrentLive(s))
    && (forall tid :: tid in s.threads ==> CallOk(ViewOf(w, s), tid, s.threads[tid]))
  }

  predicate CallOk(v: View, tid: nat, t: Thread) {
    match t
    case Deciding(epoch, runId, prev, _) =>
        && epoch == v.epoch && tid == v.decider && !v.token
        && v.current.Some? && runId == v.slot && prev.id == runId && prev.state == AwaitingDecision
        && (v.gate && 0 <= prev.stepIndex < |v.steps| ==>
          Supplied(v.steps, prev.stepIndex, prev.decisions, prev.pending))
        && (if v.Live() then
              && v.current.value.state == Running && prev.stepIndex == v.current.value.stepIndex
              && (v.gate || (v.cut && v.draining))
            else v.draining)
    case Discarding(epoch, gone, _) =>
      epoch == v.epoch ==>
        && tid == v.discarder && v.current.None?
        && gone.0.id == v.slot && !IsLive(gone.0.state) && 0 <= gone.0.stepIndex
    case Stopping(epoch, runId, _) => epoch == v.epoch ==> !v.Live() && runId == v.slot
    case Cancelling(epoch) => v.draining && epoch == v.epoch
    case _ => true
  }

  predicate Inv(w: Wiring, s: Sys) {
    !s.panicked && Issued(s) && Owned(s) && Driven(w, s) && CallsOk(w, s)
  }

  // ---- frames: what a move must show for the invariant to survive it ----

  predicate SameRoles(a: History, b: History) {
    a.ownerOf == b.ownerOf && a.decider == b.decider && a.discarder == b.discarder && a.slot == b.slot &&
      a.released == b.released
  }

  /** Every thread but tid is as it was, and no epoch is issued, cancelled or closed. */
  predicate OnlyMoves(s: Sys, s': Sys, tid: nat) {
    && tid in s.threads
    && ThreadsMove(s.threads, s'.threads, tid)
    && s'.closed == s.closed && s'.canceled == s.canceled && s'.panicked == s.panicked
    && SameRoles(s.h, s'.h)
    && s'.eng == s.eng.(current := s'.eng.current, full := s'.eng.full, cursor := s'.eng.cursor,
      recoveredPending := s'.eng.recoveredPending)
    && (s'.eng.current.Some? ==> s'.eng.current.value.id == s.h.slot && 0 <= s'.eng.current.value.stepIndex)
  }

  predicate ThreadsMove(a: map<nat, Thread>, b: map<nat, Thread>, tid: nat) {
    b == a - {tid} || (tid in b && b == a[tid := b[tid]])
  }

  lemma Untouched(s: Sys, s': Sys, tid: nat, u: nat)
    requires ThreadsMove(s.threads, s'.threads, tid) && u != tid
    ensures u in s'.threads <==> u in s.threads
    ensures u in s.threads ==> s'.threads[u] == s.threads[u]
  {
  }

  /** There is at most one driver: the owner of the current epoch. */
  lemma OneDriver(w: Wiring, s: Sys, tid: nat)
    requires Inv(w, s) && tid in s.threads && Driver(s.threads[tid])
    ensures s.threads[tid].epoch == s.eng.epoch && CurrentLive(s) && s.eng.epoch in s.h.ownerOf &&
            s.h.ownerOf[s.eng.epoch] == tid
  {
  }

  /** What a driver knows of the system it moves in. */
  lemma DriverKnows(w: Wiring, s: Sys, tid: nat)
    requires Inv(w, s) && tid in s.threads && Driver(s.threads[tid])
    ensures HasOwner(s) && s.h.ownerOf[s.eng.epoch] == tid && OwnerOf(s) == s.threads[tid]
    ensures s.threads[tid].epoch == s.eng.epoch && CurrentLive(s) && !s.panicked
    ensures DriverOk(ViewOf(w, s), s.threads[tid])
    ensures s.eng.current.value.id == s.h.slot && 0 <= s.eng.current.value.stepIndex
    ensures s.eng.epoch in s.canceled ==> s.eng.draining
  {
  }

  /** No Decide of this epoch can be in flight. */
  predicate Quiet(v: View) {
    (!v.gate && !(v.cut && v.draining)) || v.token || (v.current.Some? && v.current.value.state == AwaitingDecision)
  }

  /** A driver moves and still drives. */
  lemma DriverMoves(w: Wiring, s: Sys, s': Sys, tid: nat)
    requires Inv(w, s) && OnlyMoves(s, s', tid) && Driver(s.threads[tid])
    requires tid in s'.threads && Driver(s'.threads[tid]) && DriverOk(ViewOf(w, s'), s'.threads[tid])
    requires s'.eng.full <= s.eng.full
    requires Quiet(ViewOf(w, s)) ||
             (s'.eng.current == s.eng.current &&
               ((ViewOf(w, s).gate && ViewOf(w, s').gate) || (ViewOf(w, s').cut && s.eng.draining)))
    ensures Inv(w, s')
  {
    OneDriver(w, s, tid);
    forall u | u in s'.threads && u != tid
      ensures u in s.threads && s'.threads[u] == s.threads[u] && !Driver(s'.threads[u]) &&
              CallOk(ViewOf(w, s'), u, s'.threads[u])
    {
      Untouched(s, s', tid, u);
      assert CallOk(ViewOf(w, s), u, s.threads[u]);
    }
  }

  /** A driver passes its terminal hold, or gives up its launch: the run is no longer live. */
  lemma DriverFinishes(w: Wiring, s: Sys, s': Sys, tid: nat)
    requires Inv(w, s) && OnlyMoves(s, s', tid) && Driver(s.threads[tid])
    requires tid in s'.threads && Owner(s'.threads[tid]) && !Driver(s'.threads[tid]) &&
             s'.threads[tid].epoch == s.eng.epoch
    requires s'.eng.full <= s.eng.full && !CurrentLive(s')
    requires Quiet(ViewOf(w, s)) || (s.eng.draining && s'.eng.current.Some?)
    ensures Inv(w, s')
  {
    OneDriver(w, s, tid);
    forall u | u in s'.threads && u != tid
      ensures u in s.threads && s'.threads[u] == s.threads[u] && !Driver(s'.threads[u]) &&
              CallOk(ViewOf(w, s'), u, s'.threads[u])
    {
      Untouched(s, s', tid, u);
      assert CallOk(ViewOf(w, s), u, s.threads[u]);
    }
  }

  /** A thread that keeps its epoch disturbs nobody's. */
  lemma EpochsStay(s: Sys, s': Sys, tid: nat)
    requires Issued(s) && Owned(s) && OnlyMoves(s, s'.(canceled := s.canceled), tid) && s'.eng.full <= s.eng.full
    requires tid in s'.threads ==>
             s'.threads[tid].epoch == s.threads[tid].epoch && (Owner(s'.threads[tid]) ==> Owner(s.threads[tid]))
    requires s'.canceled == s.canceled || s'.canceled == s.canceled + {s.threads[tid].epoch}
    ensures Issued(s') && Owned(s')
  {
    forall u | u in s'.threads && u != tid
      ensures u in s.threads && s'.threads[u] == s.threads[u]
    {
      Untouched(s, s', tid, u);
    }
  }

  // ---- the execute goroutine ----

  lemma LaunchKeeps(w: Wiring, s: Sys, tid: nat, a: Answer)
    requires Inv(w, s) && tid in s.threads && s.threads[tid].Launching?
    ensures Inv(w, Window(w, s, tid, s.threads[tid], a))
  {
    hide Inv;
    var s' := Window(w, s, tid, s.threads[tid], a);
    DriverKnows(w, s, tid);
    DriverMoves(w, s, s', tid);
  }

  predicate InStep(pc: Pc, i: int, scratch: Run) {
    && (pc.Stepping? || pc.MergeFail? || pc.MergeOk?)
    && pc.i == i && pc.scratch.id == scratch.id && pc.scratch.decisions == scratch.decisions
  }

  /** A running step leaves the engine alone and keeps its index and its run's identity. */
  lemma RunStepShape(w: Wiring, s: Sys, tid: nat, epoch: nat, i: int, scratch: Run, call: StepCall, a: Answer)
    requires tid in s.threads
    ensures var s' := RunStep(w, s, tid, epoch, i, scratch, call, a);
            s' == s || (exists pc: Pc ::
                InStep(pc, i, scratch) &&
                  s' == At(s, tid, epoch, pc).(workloads := s'.workloads, h := s.h.(lost := s'.h.lost)))
  {
    var s' := RunStep(w, s, tid, epoch, i, scratch, call, a);
    if s' != s {
      assert InStep(s'.threads[tid].pc, i, scratch);
    }
  }

  lemma StepMoves(w: Wiring, s: Sys, s': Sys, tid: nat, pc: Pc)
    requires Inv(w, s) && tid in s.threads && s.threads[tid].Executing? && s.threads[tid].pc.Stepping?
    requires InStep(pc, s.threads[tid].pc.i, s.threads[tid].pc.scratch)
    requires s' == At(s, tid, s.threads[tid].epoch, pc).(workloads := s'.workloads, h := s.h.(lost := s'.h.lost))
    ensures Inv(w, s')
  {
    OneDriver(w, s, tid);
    DriverMoves(w, s, s', tid);
  }

  lemma RunStepKeeps(w: Wiring, s: Sys, tid: nat, a: Answer)
    requires Inv(w, s) && tid in s.threads && s.threads[tid].Executing? && s.threads[tid].pc.Stepping?
    ensures Inv(w, Execute(w, s, tid, s.threads[tid].epoch, s.threads[tid].pc, a))
  {
    var t := s.threads[tid];
    var s' := Execute(w, s, tid, t.epoch, t.pc, a);
    RunStepShape(w, s, tid, t.epoch, t.pc.i, t.pc.scratch, t.pc.call, a);
    if s' != s {
      var pc :| InStep(pc, t.pc.i, t.pc.scratch) &&
        s' == At(s, tid, t.epoch, pc).(workloads := s'.workloads, h := s.h.(lost := s'.h.lost));
      StepMoves(w, s, s', tid, pc);
    }
  }

  lemma TopKeeps(w: Wiring, s: Sys, tid: nat, a: Answer)
    requires Inv(w, s) && tid in s.threads && s.threads[tid].Executing? && s.threads[tid].pc.Top?
    ensures Inv(w, Execute(w, s, tid, s.threads[tid].epoch, s.threads[tid].pc, a))
  {
    hide Inv;
    var s' := Execute(w, s, tid, s.threads[tid].epoch, s.threads[tid].pc, a);
    DriverKnows(w, s, tid);
    DriverMoves(w, s, s', tid);
  }

  lemma AwaitKeeps(w: Wiring, s: Sys, tid: nat, a: Answer)
    requires Inv(w, s) && tid in s.threads && s.threads[tid].Executing? && s.threads[tid].pc.Await?
    ensures Inv(w, Execute(w, s, tid, s.threads[tid].epoch, s.threads[tid].pc, a))
  {
    hide Inv;
    var s' := Execute(w, s, tid, s.threads[tid].epoch, s.threads[tid].pc, a);
    DriverKnows(w, s, tid);
    MissingExact(w.steps[s.threads[tid].pc.i].requires_, s.eng.current.value.decisions);
    DriverMoves(w, s, s', tid);
  }

  lemma AwaitSaveKeeps(w: Wiring, s: Sys, tid: nat, a: Answer)
    requires Inv(w, s) && tid in s.threads && s.threads[tid].Executing? && s.threads[tid].pc.AwaitSave?
    ensures Inv(w, Execute(w, s, tid, s.threads[tid].epoch, s.threads[tid].pc, a))
  {
    hide Inv;
    var s' := Execute(w, s, tid, s.threads[tid].epoch, s.threads[tid].pc, a);
    DriverKnows(w, s, tid);
    if s' != s {
      DriverMoves(w, s, s', tid);
    }
  }

  lemma WokenKeeps(w: Wiring, s: Sys, tid: nat, a: Answer)
    requires Inv(w, s) && tid in s.threads && s.threads[tid].Executing? && s.threads[tid].pc.Park? && a.ok
    ensures Inv(w, Execute(w, s, tid, s.threads[tid].epoch, s.threads[tid].pc, a))
  {
    hide Inv;
    var s' := Execute(w, s, tid, s.threads[tid].epoch, s.threads[tid].pc, a);
    DriverKnows(w, s, tid);
    if s' != s {
      DriverMoves(w, s, s', tid);
    }
  }

  lemma CutKeeps(w: Wiring, s: Sys, tid: nat, a: Answer)
    requires Inv(w, s) && tid in s.threads && s.threads[tid].Executing? && s.threads[tid].pc.Park? && !a.ok
    ensures Inv(w, Execute(w, s, tid, s.threads[tid].epoch, s.threads[tid].pc, a))
  {
    hide Inv;
    var s' := Execute(w, s, tid, s.threads[tid].epoch, s.threads[tid].pc, a);
    DriverKnows(w, s, tid);
    if s' != s {
      DriverMoves(w, s, s', tid);
    }
  }

  lemma BeginKeeps(w: Wiring, s: Sys, tid: nat, a: Answer)
    requires Inv(w, s) && tid in s.threads && s.threads[tid].Executing? && s.threads[tid].pc.Begin?
    ensures Inv(w, Execute(w, s, tid, s.threads[tid].epoch, s.threads[tid].pc, a))
  {
    hide Inv;
    var s' := Execute(w, s, tid, s.threads[tid].epoch, s.threads[tid].pc, a);
    DriverKnows(w, s, tid);
    DriverMoves(w, s, s', tid);
  }

  lemma BeginSaveKeeps(w: Wiring, s: Sys, tid: nat, a: Answer)
    requires Inv(w, s) && tid in s.threads && s.threads[tid].Executing? && s.threads[tid].pc.BeginSave?
    ensures Inv(w, Execute(w, s, tid, s.threads[tid].epoch, s.threads[tid].pc, a))
  {
    hide Inv;
    var s' := Execute(w, s, tid, s.threads[tid].epoch, s.threads[tid].pc, a);
    DriverKnows(w, s, tid);
    DriverMoves(w, s, s', tid);
  }

  lemma MergeFailKeeps(w: Wiring, s: Sys, tid: nat, a: Answer)
    requires Inv(w, s) && tid in s.threads && s.threads[tid].Executing? && s.threads[tid].pc.MergeFail?
    ensures Inv(w, Execute(w, s, tid, s.threads[tid].epoch, s.threads[tid].pc, a))
  {
    hide Inv;
    var s' := Execute(w, s, tid, s.threads[tid].epoch, s.threads[tid].pc, a);
    DriverKnows(w, s, tid);
    DriverMoves(w, s, s', tid);
  }

  lemma MergeOkKeeps(w: Wiring, s: Sys, tid: nat, a: Answer)
    requires Inv(w, s) && tid in s.threads && s.threads[tid].Executing? && s.threads[tid].pc.MergeOk?
    ensures Inv(w, Execute(w, s, tid, s.threads[tid].epoch, s.threads[tid].pc, a))
  {
    hide Inv;
    var s' := Execute(w, s, tid, s.threads[tid].epoch, s.threads[tid].pc, a);
    DriverKnows(w, s, tid);
    DriverMoves(w, s, s', tid);
  }

  lemma FailClearKeeps(w: Wiring, s: Sys, tid: nat, a: Answer)
    requires Inv(w, s) && tid in s.threads && s.threads[tid].Executing? && s.threads[tid].pc.FailClear?
    ensures Inv(w, Execute(w, s, tid, s.threads[tid].epoch, s.threads[tid].pc, a))
  {
    hide Inv;
    var s' := Execute(w, s, tid, s.threads[tid].epoch, s.threads[tid].pc, a);
    DriverKnows(w, s, tid);
    DriverMoves(w, s, s', tid);
  }

  lemma OkClearKeeps(w: Wiring, s: Sys, tid: nat, a: Answer)
    requires Inv(w, s) && tid in s.threads && s.threads[tid].Executing? && s.threads[tid].pc.OkClear?
    ensures Inv(w, Execute(w, s, tid, s.threads[tid].epoch, s.threads[tid].pc, a))
  {
    hide Inv;
    var s' := Execute(w, s, tid, s.threads[tid].epoch, s.threads[tid].pc, a);
    DriverKnows(w, s, tid);
    DriverMoves(w, s, s', tid);
  }

  lemma OkSaveKeeps(w: Wiring, s: Sys, tid: nat, a: Answer)
    requires Inv(w, s) && tid in s.threads && s.threads[tid].Executing? && s.threads[tid].pc.OkSave?
    ensures Inv(w, Execute(w, s, tid, s.threads[tid].epoch, s.threads[tid].pc, a))
  {
    hide Inv;
    var s' := Execute(w, s, tid, s.threads[tid].epoch, s.threads[tid].pc, a);
    DriverKnows(w, s, tid);
    DriverMoves(w, s, s', tid);
  }

  lemma FinishKeeps(w: Wiring, s: Sys, tid: nat, a: Answer)
    requires Inv(w, s) && tid in s.threads && s.threads[tid].Executing? && s.threads[tid].pc.Finish?
    ensures Inv(w, Execute(w, s, tid, s.threads[tid].epoch, s.threads[tid].pc, a))
  {
    hide Inv;
    var s' := Execute(w, s, tid, s.threads[tid].epoch, s.threads[tid].pc, a);
    DriverKnows(w, s, tid);
    DriverFinishes(w, s, s', tid);
  }

  // ---- the reset goroutine ----

  lemma TeardownKeeps(w: Wiring, s: Sys, tid: nat, a: Answer)
    requires Inv(w, s) && tid in s.threads && s.threads[tid].Tearing? && Driver(s.threads[tid]) &&
             !s.threads[tid].rpc.ResetFinish?
    ensures var t := s.threads[tid]; Inv(w, Teardown(s, tid, t.epoch, t.runId, t.rpc, a))
  {
    hide Inv;
    var t := s.threads[tid];
    var s' := Teardown(s, tid, t.epoch, t.runId, t.rpc, a);
    DriverKnows(w, s, tid);
    if s' != s {
      DriverMoves(w, s, s', tid);
    }
  }

  lemma ResetFinishKeeps(w: Wiring, s: Sys, tid: nat, a: Answer)
    requires Inv(w, s) && tid in s.threads && s.threads[tid].Tearing? && s.threads[tid].rpc.ResetFinish?
    ensures var t := s.threads[tid]; Inv(w, Teardown(s, tid, t.epoch, t.runId, t.rpc, a))
  {
    hide Inv;
    var t := s.threads[tid];
    var s' := Teardown(s, tid, t.epoch, t.runId, t.rpc, a);
    DriverKnows(w, s, tid);
    DriverFinishes(w, s, s', tid);
  }

  // ---- owners past their terminal hold, and failed launches ----

  /** What an owner does past its terminal hold is not seen by the others. */
  lemma TailUnseen(w: Wiring, s: Sys, s': Sys, tid: nat)
    requires Inv(w, s) && tid in s.threads && Owner(s.threads[tid]) && !Driver(s.threads[tid])
    requires OnlyMoves(s, s'.(canceled := s.canceled), tid) && s'.eng.current == s.eng.current
    requires tid in s'.threads && Owner(s'.threads[tid]) && !Driver(s'.threads[tid]) &&
             s'.threads[tid].epoch == s.threads[tid].epoch
    requires s'.eng.full == s.eng.full
    ensures ViewOf(w, s') == ViewOf(w, s)
  {
  }

  /** An owner past its terminal hold moves on; it may cancel its own context. */
  lemma TailMoves(w: Wiring, s: Sys, s': Sys, tid: nat)
    requires Inv(w, s) && tid in s.threads && Owner(s.threads[tid]) && !Driver(s.threads[tid])
    requires OnlyMoves(s, s'.(canceled := s.canceled), tid) && s'.eng.current == s.eng.current
    requires tid in s'.threads && Owner(s'.threads[tid]) && !Driver(s'.threads[tid]) &&
             s'.threads[tid].epoch == s.threads[tid].epoch
    requires s'.canceled == s.canceled || s'.canceled == s.canceled + {s.threads[tid].epoch}
    requires s'.eng.full == s.eng.full
    ensures Inv(w, s')
  {
    TailUnseen(w, s, s', tid);
    EpochsStay(s, s', tid);
    TailDriven(w, s, s', tid);
    hide Issued, Owned, Driven, CallOk, ViewOf;
    forall u | u in s'.threads ensures CallOk(ViewOf(w, s'), u, s'.threads[u]) {
      if u != tid { Untouched(s, s', tid, u); } else { OwnersAreNoCalls(ViewOf(w, s'), u, s'.threads[u]); }
    }
  }

  lemma OwnersAreNoCalls(v: View, tid: nat, t: Thread)
    requires Owner(t)
    ensures CallOk(v, tid, t)
  {
  }

  lemma TailDriven(w: Wiring, s: Sys, s': Sys, tid: nat)
    requires Inv(w, s) && tid in s.threads && !Driver(s.threads[tid]) && ViewOf(w, s') == ViewOf(w, s)
    requires OnlyMoves(s, s'.(canceled := s.canceled), tid) && s'.eng.current == s.eng.current
    requires tid in s'.threads && !Driver(s'.threads[tid])
    requires s'.canceled == s.canceled || s'.canceled == s.canceled + {s.threads[tid].epoch}
    requires Owner(s.threads[tid])
    ensures Driven(w, s')
  {
    hide Issued, CallsOk, DriverOk, ViewOf;
    forall u | u in s'.threads && Driver(s'.threads[u]) ensures DriverOk(ViewOf(w, s'), s'.threads[u]) {
      Untouched(s, s', tid, u);
    }
    if CurrentLive(s) { Untouched(s, s', tid, s.h.ownerOf[s.eng.epoch]); }
  }

  /** An owner closes its done channel and is gone. */
  lemma ClosingKeeps(w: Wiring, s: Sys, tid: nat, a: Answer)
    requires Inv(w, s) && tid in s.threads && s.threads[tid].Closing?
    ensures Inv(w, Window(w, s, tid, s.threads[tid], a))
  {
    var s' := Window(w, s, tid, s.threads[tid], a);
    var e := s.threads[tid].epoch;
    assert s'.threads == s.threads - {tid} && s'.closed == s.closed + {e};
    forall u | u in s'.threads
      ensures u in s.threads && s'.threads[u] == s.threads[u] && (Owner(s.threads[u]) ==> s.threads[u].epoch != e)
    {
    }
    assert ViewOf(w, s') == ViewOf(w, s);
  }

  lemma TailKeeps(w: Wiring, s: Sys, tid: nat, a: Answer)
    requires Inv(w, s) && tid in s.threads && s.threads[tid].Executing? &&
             (s.threads[tid].pc.TailClear? || s.threads[tid].pc.TailSave?)
    ensures Inv(w, Execute(w, s, tid, s.threads[tid].epoch, s.threads[tid].pc, a))
  {
    var s' := Execute(w, s, tid, s.threads[tid].epoch, s.threads[tid].pc, a);
    TailMoves(w, s, s', tid);
  }

  lemma ResetClearedKeeps(w: Wiring, s: Sys, tid: nat, a: Answer)
    requires Inv(w, s) && tid in s.threads && s.threads[tid].Tearing? && s.threads[tid].rpc.ResetTailClear?
    ensures var t := s.threads[tid]; Inv(w, Teardown(s, tid, t.epoch, t.runId, t.rpc, a))
  {
    var t := s.threads[tid];
    TailMoves(w, s, Teardown(s, tid, t.epoch, t.runId, t.rpc, a), tid);
  }

  lemma ResetSavedKeeps(w: Wiring, s: Sys, tid: nat, a: Answer)
    requires Inv(w, s) && tid in s.threads && s.threads[tid].Tearing? && s.threads[tid].rpc.ResetTailSave?
    ensures var t := s.threads[tid]; Inv(w, Teardown(s, tid, t.epoch, t.runId, t.rpc, a))
  {
    var t := s.threads[tid];
    TailMoves(w, s, Teardown(s, tid, t.epoch, t.runId, t.rpc, a), tid);
  }

  lemma ResetReleasedKeeps(w: Wiring, s: Sys, tid: nat, a: Answer)
    requires Inv(w, s) && tid in s.threads && s.threads[tid].Tearing? &&
             (s.threads[tid].rpc.DeleteRecord? || s.threads[tid].rpc.Release?)
    ensures var t := s.threads[tid]; Inv(w, Teardown(s, tid, t.epoch, t.runId, t.rpc, a))
  {
    var t := s.threads[tid];
    TailMoves(w, s, Teardown(s, tid, t.epoch, t.runId, t.rpc, a), tid);
  }

  /** A failed launch puts back a run nobody drives. */
  lemma Undone(w: Wiring, s: Sys, s': Sys, tid: nat)
    requires Inv(w, s) && tid in s.threads && s.threads[tid].Undoing?
    requires s'.threads == s.threads[tid := Closing(s.threads[tid].epoch)]
    requires s'.closed == s.closed && s'.canceled == s.canceled && !s'.panicked
    requires s'.eng == s.eng.(current := s'.eng.current, recoveredPending := s'.eng.recoveredPending)
    requires SameRoles(s.h.(slot := s'.h.slot), s'.h) && !CurrentLive(s')
    requires s'.eng.current.Some? ==> s'.eng.current.value.id == s'.h.slot && 0 <= s'.eng.current.value.stepIndex
    ensures Inv(w, s')
  {
    OneDriver(w, s, tid);
    forall u | u in s'.threads && u != tid
      ensures u in s.threads && s'.threads[u] == s.threads[u] && !Driver(s'.threads[u]) &&
              CallOk(ViewOf(w, s'), u, s'.threads[u])
    {
      assert CallOk(ViewOf(w, s), u, s.threads[u]);
    }
  }

  lemma UndoStartKeeps(w: Wiring, s: Sys, tid: nat, a: Answer)
    requires Inv(w, s) && tid in s.threads && s.threads[tid].Undoing? && s.threads[tid].how.ByStart?
    ensures Inv(w, Window(w, s, tid, s.threads[tid], a))
  {
    hide Inv;
    DriverKnows(w, s, tid);
    Undone(w, s, Window(w, s, tid, s.threads[tid], a), tid);
  }

  lemma UndoRetryKeeps(w: Wiring, s: Sys, tid: nat, a: Answer)
    requires Inv(w, s) && tid in s.threads && s.threads[tid].Undoing? && s.threads[tid].how.ByRetry?
    ensures Inv(w, Window(w, s, tid, s.threads[tid], a))
  {
    hide Inv;
    DriverKnows(w, s, tid);
    Undone(w, s, Window(w, s, tid, s.threads[tid], a), tid);
  }

  lemma UndoResetKeeps(w: Wiring, s: Sys, tid: nat, a: Answer)
    requires Inv(w, s) && tid in s.threads && s.threads[tid].Undoing? && s.threads[tid].how.ByReset?
    ensures Inv(w, Window(w, s, tid, s.threads[tid], a))
  {
    hide Inv;
    DriverKnows(w, s, tid);
    Undone(w, s, Window(w, s, tid, s.threads[tid], a), tid);
  }

  // ---- calls past their first hold ----

  /** What a call may do without touching anything the others look at. */
  predicate Ends(w: Wiring, s: Sys, s': Sys, tid: nat) {
    && OnlyMoves(s, s', tid) && !Owner(s.threads[tid]) && s'.eng.full == s.eng.full
    && (s'.eng.current == s.eng.current ||
      (!CurrentLive(s) && !CurrentLive(s') && s.eng.current.Some? && s'.eng.current.Some?))
    && (tid in s'.threads ==>
        !Owner(s'.threads[tid]) && s'.threads[tid].epoch == s.threads[tid].epoch &&
        CallOk(ViewOf(w, s'), tid, s'.threads[tid]))
    && (ViewOf(w, s).inFlight && CurrentLive(s) ==> ViewOf(w, s').inFlight)
  }

  lemma EndsForOthers(w: Wiring, s: Sys, s': Sys, tid: nat, u: nat)
    requires Inv(w, s) && Ends(w, s, s', tid) && u in s.threads && u != tid
    ensures CallOk(ViewOf(w, s'), u, s.threads[u])
    ensures Driver(s.threads[u]) ==> DriverOk(ViewOf(w, s'), s.threads[u])
  {
    Untouched(s, s', tid, u);
    assert CallOk(ViewOf(w, s), u, s.threads[u]);
  }

  /** A call moves or ends. */
  lemma CallEnds(w: Wiring, s: Sys, s': Sys, tid: nat)
    requires Inv(w, s) && Ends(w, s, s', tid)
    ensures Inv(w, s')
  {
    EpochsStay(s, s', tid);
    EndsDriven(w, s, s', tid);
    EndsCalls(w, s, s', tid);
    hide Issued, Owned, Driven, CallsOk;
  }

  lemma EndsDriven(w: Wiring, s: Sys, s': Sys, tid: nat)
    requires Inv(w, s) && Ends(w, s, s', tid)
    ensures Driven(w, s')
  {
    hide DriverOk, CallOk, CallsOk, Issued;
    forall u | u in s'.threads && Driver(s'.threads[u]) ensures DriverOk(ViewOf(w, s'), s'.threads[u]) {
      Untouched(s, s', tid, u);
      EndsForOthers(w, s, s', tid, u);
    }
    if HasOwner(s) && Driver(OwnerOf(s)) {
      Untouched(s, s', tid, s.h.ownerOf[s.eng.epoch]);
    }
  }

  lemma EndsCalls(w: Wiring, s: Sys, s': Sys, tid: nat)
    requires Inv(w, s) && Ends(w, s, s', tid)
    ensures CallsOk(w, s')
  {
    forall u | u in s'.threads ensures CallOk(ViewOf(w, s'), u, s'.threads[u]) {
      if u != tid {
        Untouched(s, s', tid, u);
        EndsForOthers(w, s, s', tid, u);
      }
    }
    hide Driven, Issued, Owned, CallOk;
  }

  /** A Stop that leaves the run alone is seen by nobody. */
  lemma StopUnseen(w: Wiring, s: Sys, s': Sys, tid: nat)
    requires Inv(w, s) && tid in s.threads && s.threads[tid].Stopping? && OnlyMoves(s, s', tid)
    requires s'.eng.current == s.eng.current && s'.eng.full == s.eng.full
    requires tid in s'.threads ==>
             s'.threads[tid].Stopping? && s'.threads[tid].epoch == s.threads[tid].epoch &&
             s'.threads[tid].runId == s.threads[tid].runId
    ensures Inv(w, s')
  {
    hide DriverOk;
    assert ViewOf(w, s') == ViewOf(w, s);
    assert CallOk(ViewOf(w, s), tid, s.threads[tid]);
    CallEnds(w, s, s', tid);
  }

  /** What a Stop past its first hold knows. */
  lemma StopKnows(w: Wiring, s: Sys, tid: nat)
    requires Inv(w, s) && tid in s.threads && s.threads[tid].Stopping?
    ensures CallOk(ViewOf(w, s), tid, s.threads[tid]) && !s.panicked
    ensures s.eng.current.Some? ==> s.eng.current.value.id == s.h.slot && 0 <= s.eng.current.value.stepIndex
  {
  }

  lemma StopRecordKeeps(w: Wiring, s: Sys, tid: nat, a: Answer)
    requires Inv(w, s) && tid in s.threads && s.threads[tid].Stopping? && s.threads[tid].spc.StopRecording?
    ensures var t := s.threads[tid]; Inv(w, Stop(s, tid, t.epoch, t.runId, t.spc, a))
  {
    var t := s.threads[tid];
    hide DriverOk, Inv;
    StopKnows(w, s, tid);
    CallEnds(w, s, Stop(s, tid, t.epoch, t.runId, t.spc, a), tid);
  }

  lemma StopFinishKeeps(w: Wiring, s: Sys, tid: nat, a: Answer)
    requires Inv(w, s) && tid in s.threads && s.threads[tid].Stopping? && s.threads[tid].spc.StopFinish?
    ensures var t := s.threads[tid]; Inv(w, Stop(s, tid, t.epoch, t.runId, t.spc, a))
  {
    var t := s.threads[tid];
    hide DriverOk, Inv;
    StopKnows(w, s, tid);
    CallEnds(w, s, Stop(s, tid, t.epoch, t.runId, t.spc, a), tid);
  }

  lemma StopClearKeeps(w: Wiring, s: Sys, tid: nat, a: Answer)
    requires Inv(w, s) && tid in s.threads && s.threads[tid].Stopping? && s.threads[tid].spc.StopTailClear?
    ensures var t := s.threads[tid]; Inv(w, Stop(s, tid, t.epoch, t.runId, t.spc, a))
  {
    var t := s.threads[tid];
    hide DriverOk, Inv;
    StopKnows(w, s, tid);
    StopUnseen(w, s, Stop(s, tid, t.epoch, t.runId, t.spc, a), tid);
  }

  lemma StopSaveKeeps(w: Wiring, s: Sys, tid: nat, a: Answer)
    requires Inv(w, s) && tid in s.threads && s.threads[tid].Stopping? && s.threads[tid].spc.StopTailSave?
    ensures var t := s.threads[tid]; Inv(w, Stop(s, tid, t.epoch, t.runId, t.spc, a))
  {
    var t := s.threads[tid];
    hide DriverOk, Inv;
    StopKnows(w, s, tid);
    StopUnseen(w, s, Stop(s, tid, t.epoch, t.runId, t.spc, a), tid);
  }

  lemma StopEnsureKeeps(w: Wiring, s: Sys, tid: nat, a: Answer)
    requires Inv(w, s) && tid in s.threads && s.threads[tid].Stopping? && s.threads[tid].spc.StopEnsure?
    ensures var t := s.threads[tid]; Inv(w, Stop(s, tid, t.epoch, t.runId, t.spc, a))
  {
    var t := s.threads[tid];
    hide DriverOk, Inv;
    StopKnows(w, s, tid);
    StopUnseen(w, s, Stop(s, tid, t.epoch, t.runId, t.spc, a), tid);
  }

  lemma StopReleaseKeeps(w: Wiring, s: Sys, tid: nat, a: Answer)
    requires Inv(w, s) && tid in s.threads && s.threads[tid].Stopping? && s.threads[tid].spc.StopRelease?
    ensures var t := s.threads[tid]; Inv(w, Stop(s, tid, t.epoch, t.runId, t.spc, a))
  {
    var t := s.threads[tid];
    hide DriverOk, Inv;
    StopKnows(w, s, tid);
    StopUnseen(w, s, Stop(s, tid, t.epoch, t.runId, t.spc, a), tid);
  }

  /** The Decide in flight ends: it is the only one, so only the driver is concerned. */
  lemma DecideEnds(w: Wiring, s: Sys, s': Sys, tid: nat)
    requires Inv(w, s) && OnlyMoves(s, s', tid) && s.threads[tid].Deciding? && s.threads[tid].epoch == s.eng.epoch
    requires tid !in s'.threads && s'.eng.full <= s.eng.full + {s.eng.resume}
    requires s'.eng.current.Some? && CurrentLive(s') == CurrentLive(s)
    requires CurrentLive(s) ==> HasOwner(s) && DriverOk(ViewOf(w, s'), OwnerOf(s))
    ensures Inv(w, s')
  {
    assert CallOk(ViewOf(w, s), tid, s.threads[tid]);
    forall u | u in s'.threads && u != tid
      ensures u in s.threads && s'.threads[u] == s.threads[u] && CallOk(ViewOf(w, s'), u, s'.threads[u])
      ensures Driver(s'.threads[u]) ==> DriverOk(ViewOf(w, s'), s'.threads[u])
    {
      Untouched(s, s', tid, u);
      assert CallOk(ViewOf(w, s), u, s.threads[u]);
    }
  }

  lemma DecideSaveKeeps(w: Wiring, s: Sys, tid: nat, a: Answer)
    requires Inv(w, s) && tid in s.threads && s.threads[tid].Deciding? && s.threads[tid].dpc.DecideSaving?
    ensures var t := s.threads[tid]; Inv(w, Decision(s, tid, t.epoch, t.runId, t.prev, t.dpc, a))
  {
    var t := s.threads[tid];
    hide DriverOk;
    assert CallOk(ViewOf(w, s), tid, t);
    CallEnds(w, s, Decision(s, tid, t.epoch, t.runId, t.prev, t.dpc, a), tid);
  }

  lemma DecideUndoKeeps(w: Wiring, s: Sys, tid: nat, a: Answer)
    requires Inv(w, s) && tid in s.threads && s.threads[tid].Deciding? && s.threads[tid].dpc.DecideUndoing?
    ensures var t := s.threads[tid]; Inv(w, Decision(s, tid, t.epoch, t.runId, t.prev, t.dpc, a))
  {
    var t := s.threads[tid];
    hide DriverOk;
    assert CallOk(ViewOf(w, s), tid, t);
    DecideEnds(w, s, Decision(s, tid, t.epoch, t.runId, t.prev, t.dpc, a), tid);
  }

  lemma DecideSignalKeeps(w: Wiring, s: Sys, tid: nat, a: Answer)
    requires Inv(w, s) && tid in s.threads && s.threads[tid].Deciding? && s.threads[tid].dpc.DecideSignalling?
    ensures var t := s.threads[tid]; Inv(w, Decision(s, tid, t.epoch, t.runId, t.prev, t.dpc, a))
  {
    var t := s.threads[tid];
    hide DriverOk;
    var s' := Decision(s, tid, t.epoch, t.runId, t.prev, t.dpc, a);
    assert CallOk(ViewOf(w, s), tid, t);
    DecideEnds(w, s, s', tid);
  }

  lemma DiscardingShape(w: Wiring, s: Sys, tid: nat, a: Answer)
    requires tid in s.threads && s.threads[tid].Discarding?
    ensures var t, s' := s.threads[tid], Move(w, s, tid, a);
            || s' == Drop(s, tid) || s' == Put(s, tid, Discarding(t.epoch, t.gone, true))
            || (s.eng.current.None? && t.epoch == s.eng.epoch &&
                s' == Drop(s.(eng := s.eng.(current := Some(t.gone.0), recoveredPending := t.gone.1)), tid))
  {
  }

  lemma DiscardingKeeps(w: Wiring, s: Sys, tid: nat, a: Answer)
    requires Inv(w, s) && tid in s.threads && s.threads[tid].Discarding?
    ensures Inv(w, Move(w, s, tid, a))
  {
    hide Inv, Move, DriverOk;
    var t, s' := s.threads[tid], Move(w, s, tid, a);
    DiscardingShape(w, s, tid, a);
    DiscardKnows(w, s, tid);
    if s'.eng == s.eng {
      CallEnds(w, s, s', tid);
    } else {
      Restored(w, s, s', tid);
    }
  }

  lemma DiscardKnows(w: Wiring, s: Sys, tid: nat)
    requires Inv(w, s) && tid in s.threads && s.threads[tid].Discarding?
    ensures CallOk(ViewOf(w, s), tid, s.threads[tid])
    ensures s.eng.current.Some? ==> s.eng.current.value.id == s.h.slot && 0 <= s.eng.current.value.stepIndex
  {
  }

  /** A failed Discard puts its run back. */
  lemma Restored(w: Wiring, s: Sys, s': Sys, tid: nat)
    requires Inv(w, s) && OnlyMoves(s, s', tid) && s.threads[tid].Discarding? && s.threads[tid].epoch == s.eng.epoch
    requires tid !in s'.threads && s'.eng.full == s.eng.full && s'.eng.current == Some(s.threads[tid].gone.0)
    ensures Inv(w, s')
  {
    assert CallOk(ViewOf(w, s), tid, s.threads[tid]);
    forall u | u in s'.threads && u != tid
      ensures u in s.threads && s'.threads[u] == s.threads[u] && CallOk(ViewOf(w, s'), u, s'.threads[u]) &&
              !Driver(s'.threads[u])
    {
      Untouched(s, s', tid, u);
      assert CallOk(ViewOf(w, s), u, s.threads[u]);
    }
  }

  /** The done channel of the current epoch is closed only once nothing drives the run. */
  lemma ClosedIsOver(w: Wiring, s: Sys)
    requires Inv(w, s)
    ensures s.eng.epoch in s.closed ==> !CurrentLive(s)
  {
    if CurrentLive(s) { assert Owner(OwnerOf(s)); }
  }

  /** Nothing looks at whether CancelAndWait returned, so over a drained, undriven run it may. */
  lemma ReleasedKeeps(w: Wiring, s: Sys)
    requires Inv(w, s) && s.eng.draining && !CurrentLive(s)
    ensures Inv(w, s.(h := s.h.(released := true)))
  {
    hide DriverOk, CallOk;
    assert ViewOf(w, s.(h := s.h.(released := true))) == ViewOf(w, s);
  }

  lemma CancellingShape(w: Wiring, s: Sys, tid: nat, a: Answer)
    requires tid in s.threads && s.threads[tid].Cancelling?
    ensures var s' := Move(w, s, tid, a);
            || s' == s || s' == Drop(s, tid)
            || (s.threads[tid].epoch in s.closed && s' == Drop(s, tid).(h := s.h.(released := true)))
  {
  }

  lemma CancellingKeeps(w: Wiring, s: Sys, tid: nat, a: Answer)
    requires Inv(w, s) && tid in s.threads && s.threads[tid].Cancelling?
    ensures Inv(w, Move(w, s, tid, a))
  {
    hide Move, DriverOk;
    CancellingShape(w, s, tid, a);
    assert CallOk(ViewOf(w, s), tid, s.threads[tid]);
    CallEnds(w, s, Drop(s, tid), tid);
    if s.threads[tid].epoch in s.closed {
      ClosedIsOver(w, s);
      ReleasedKeeps(w, Drop(s, tid));
    }
  }

  // ---- API calls: the first holds ----

  /** A launch opens a new epoch over a run nobody drives. */
  lemma Launched(w: Wiring, s: Sys, s': Sys, tid: nat)
    requires Inv(w, s) && !CurrentLive(s) && !s.eng.draining && tid !in s.threads
    requires tid in s'.threads && s'.threads == s.threads[tid := s'.threads[tid]]
    requires s'.threads[tid].Launching? && s'.threads[tid].epoch == s.eng.epoch + 1
    requires s'.eng.epoch == s.eng.epoch + 1 && s'.eng.handle == Some(s'.eng.epoch) && s'.eng.full == s.eng.full
    requires s'.eng.draining == s.eng.draining && (s'.eng.resume == s.eng.resume || s'.eng.resume == s'.eng.epoch)
    requires s'.closed == s.closed && s'.canceled == s.canceled && !s'.panicked
    requires s'.h.ownerOf == s.h.ownerOf[s'.eng.epoch := tid] && s'.h.decider == s.h.decider &&
             s'.h.released == s.h.released
    requires CurrentLive(s') && s'.eng.current.value.id == s'.h.slot && 0 <= s'.eng.current.value.stepIndex
    requires DriverOk(ViewOf(w, s'), s'.threads[tid])
    ensures Inv(w, s')
  {
    forall u | u in s'.threads && u != tid
      ensures u in s.threads && s'.threads[u] == s.threads[u] && !Driver(s'.threads[u]) &&
              CallOk(ViewOf(w, s'), u, s'.threads[u])
    {
      assert CallOk(ViewOf(w, s), u, s.threads[u]);
    }
  }

  lemma StartKeeps(w: Wiring, s: Sys, tid: nat, id: string, now: nat)
    requires Inv(w, s)
    ensures Inv(w, Call(w, s, CallStart(tid, id, now)))
  {
    var s' := Call(w, s, CallStart(tid, id, now));
    if s' != s {
      Launched(w, s, s', tid);
    }
  }

  lemma RetryKeeps(w: Wiring, s: Sys, tid: nat, runId: string, now: nat)
    requires Inv(w, s)
    ensures Inv(w, Call(w, s, CallRetry(tid, runId, now)))
  {
    var s' := Call(w, s, CallRetry(tid, runId, now));
    if s' != s {
      Launched(w, s, s', tid);
    }
  }

  lemma ResetKeeps(w: Wiring, s: Sys, tid: nat, runId: string, ready: bool, has: bool, now: nat)
    requires Inv(w, s)
    ensures Inv(w, Call(w, s, CallReset(tid, runId, ready, has, now)))
  {
    var s' := Call(w, s, CallReset(tid, runId, ready, has, now));
    if s' != s {
      Launched(w, s, s', tid);
    }
  }

  /** A Decide that is accepted finds the run parked, and leaves it running and still parked. */
  lemma Decided(w: Wiring, s: Sys, s': Sys, tid: nat)
    requires Inv(w, s) && tid !in s.threads && s.eng.current.Some? && s.eng.current.value.state == AwaitingDecision
    requires tid in s'.threads && s'.threads == s.threads[tid := s'.threads[tid]]
    requires var t := s'.threads[tid];
             t.Deciding? && t.epoch == s.eng.epoch && t.runId == s.h.slot && t.prev == s.eng.current.value
    requires s'.eng == s.eng.(current := s'.eng.current) && s'.eng.current.Some?
    requires var r := s'.eng.current.value;
             && r.state == Running && r.id == s.h.slot && r.stepIndex == s.eng.current.value.stepIndex
             && forall k :: k in s.eng.current.value.decisions || k in s.eng.current.value.pending ==> k in r.decisions
    requires s'.closed == s.closed && s'.canceled == s.canceled && !s'.panicked && SameRoles(s.h.(decider := tid), s'.h)
    ensures Inv(w, s')
  {
    var v, v' := ViewOf(w, s), ViewOf(w, s');
    var d := OwnerOf(s);
    assert DriverOk(v, d);
    assert CallOk(v', tid, s'.threads[tid]) by {
      assert 0 <= s.eng.current.value.stepIndex;
    }
    forall u | u in s'.threads && u != tid
      ensures u in s.threads && s'.threads[u] == s.threads[u] && CallOk(v', u, s'.threads[u])
      ensures Driver(s'.threads[u]) ==> DriverOk(v', s'.threads[u])
    {
      assert CallOk(v, u, s.threads[u]);
    }
    assert Driven(w, s');
    assert CallsOk(w, s');
  }

  lemma DecideKeeps(w: Wiring, s: Sys, tid: nat, runId: string, decisions: map<string, string>, now: nat)
    requires Inv(w, s)
    ensures Inv(w, Call(w, s, CallDecide(tid, runId, decisions, now)))
  {
    var s' := Call(w, s, CallDecide(tid, runId, decisions, now));
    if s' != s {
      Decided(w, s, s', tid);
    }
  }

  lemma DiscardKeeps(w: Wiring, s: Sys, tid: nat, runId: string)
    requires Inv(w, s)
    ensures Inv(w, Call(w, s, CallDiscard(tid, runId)))
  {
    var s' := Call(w, s, CallDiscard(tid, runId));
    if s' != s {
      forall u | u in s.threads
        ensures u in s'.threads && s'.threads[u] == s.threads[u] && CallOk(ViewOf(w, s'), u, s'.threads[u]) &&
                !Driver(s.threads[u])
      {
        assert CallOk(ViewOf(w, s), u, s.threads[u]);
      }
    }
  }

  lemma StopKeeps(w: Wiring, s: Sys, tid: nat, runId: string, ready: bool)
    requires Inv(w, s)
    ensures Inv(w, Call(w, s, CallStop(tid, runId, ready)))
  {
    if tid !in s.threads && StopRefusal(s.eng, runId, ready).None? {
      StopStarts(w, s, tid, runId);
    }
  }

  /** A Stop that is accepted finds a run nobody drives. */
  lemma StopStarts(w: Wiring, s: Sys, tid: nat, runId: string)
    requires Inv(w, s) && tid !in s.threads && Holds(s.eng, runId) && !CurrentLive(s)
    ensures Inv(w, Put(s, tid, Stopping(s.eng.epoch, runId, StopEnsure)))
  {
    hide DriverOk;
    assert ViewOf(w, Put(s, tid, Stopping(s.eng.epoch, runId, StopEnsure))) == ViewOf(w, s);
  }

  /** Draining shuts nobody's driver out. */
  lemma Drained(w: Wiring, s: Sys, s': Sys)
    requires Inv(w, s) && s'.eng == s.eng.(draining := true) && s'.threads == s.threads && s'.h == s.h
    requires s'.closed == s.closed && s'.canceled == s.canceled && !s'.panicked
    ensures Inv(w, s')
  {
    forall u | u in s.threads
      ensures CallOk(ViewOf(w, s'), u, s.threads[u])
      ensures Driver(s.threads[u]) ==> DriverOk(ViewOf(w, s'), s.threads[u])
    {
      assert CallOk(ViewOf(w, s), u, s.threads[u]);
    }
  }

  lemma CancelsCurrent(w: Wiring, s: Sys, tid: nat)
    requires Inv(w, s) && s.eng.draining && tid !in s.threads
    ensures Inv(w, Put(s.(canceled := s.canceled + {s.eng.epoch}), tid, Cancelling(s.eng.epoch)))
  {
    hide DriverOk;
    var s' := Put(s.(canceled := s.canceled + {s.eng.epoch}), tid, Cancelling(s.eng.epoch));
    assert ViewOf(w, s') == ViewOf(w, s);
  }

  lemma CancelKeeps(w: Wiring, s: Sys, tid: nat)
    requires Inv(w, s)
    ensures Inv(w, Call(w, s, CallCancel(tid)))
  {
    hide DriverOk, CallOk;
    if tid !in s.threads {
      var s1 := s.(eng := s.eng.(draining := true));
      Drained(w, s, s1);
      if s.eng.handle.None? { ReleasedKeeps(w, s1); } else { CancelsCurrent(w, s1, tid); }
    }
  }

  lemma MarkKeeps(w: Wiring, s: Sys, tid: nat, name: string, index: int, total: int)
    requires Inv(w, s)
    ensures Inv(w, Marked(w, s, tid, name, index, total))
  {
    assert ViewOf(w, Marked(w, s, tid, name, index, total)) == ViewOf(w, s);
  }

  lemma VanishKeeps(w: Wiring, s: Sys, runId: string)
    requires Inv(w, s)
    ensures Inv(w, Next(w, s, Vanish(runId)))
  {
    assert ViewOf(w, Next(w, s, Vanish(runId))) == ViewOf(w, s);
  }

  // ---- every event keeps the invariant ----

  lemma CallKeeps(w: Wiring, s: Sys, ev: Event)
    requires Inv(w, s) && !ev.Advance? && !ev.Mark? && !ev.Vanish?
    ensures Inv(w, Call(w, s, ev))
  {
    match ev
    case CallStart(tid, id, now) => StartKeeps(w, s, tid, id, now);
    case CallRetry(tid, runId, now) => RetryKeeps(w, s, tid, runId, now);
    case CallReset(tid, runId, ready, has, now) => ResetKeeps(w, s, tid, runId, ready, has, now);
    case CallDecide(tid, runId, decisions, now) => DecideKeeps(w, s, tid, runId, decisions, now);
    case CallDiscard(tid, runId) => DiscardKeeps(w, s, tid, runId);
    case CallStop(tid, runId, ready) => StopKeeps(w, s, tid, runId, ready);
    case CallCancel(tid) => CancelKeeps(w, s, tid);
  }

  lemma ExecuteKeeps(w: Wiring, s: Sys, tid: nat, a: Answer)
    requires Inv(w, s) && tid in s.threads && s.threads[tid].Executing?
    ensures Inv(w, Execute(w, s, tid, s.threads[tid].epoch, s.threads[tid].pc, a))
  {
    match s.threads[tid].pc
    case Top => TopKeeps(w, s, tid, a);
    case Await(_) => AwaitKeeps(w, s, tid, a);
    case AwaitSave(_, _, _) => AwaitSaveKeeps(w, s, tid, a);
    case Park(_, _) => if a.ok { WokenKeeps(w, s, tid, a); } else { CutKeeps(w, s, tid, a); }
    case Begin(_) => BeginKeeps(w, s, tid, a);
    case BeginSave(_, _) => BeginSaveKeeps(w, s, tid, a);
    case Stepping(_, _, _) => RunStepKeeps(w, s, tid, a);
    case MergeFail(_, _, _) => MergeFailKeeps(w, s, tid, a);
    case FailClear(_) => FailClearKeeps(w, s, tid, a);
    case MergeOk(_, _) => MergeOkKeeps(w, s, tid, a);
    case OkClear(_, _) => OkClearKeeps(w, s, tid, a);
    case OkSave(_) => OkSaveKeeps(w, s, tid, a);
    case Finish(_) => FinishKeeps(w, s, tid, a);
    case TailClear(_) => TailKeeps(w, s, tid, a);
    case TailSave(_) => TailKeeps(w, s, tid, a);
  }

  lemma TearingKeeps(w: Wiring, s: Sys, tid: nat, a: Answer)
    requires Inv(w, s) && tid in s.threads && s.threads[tid].Tearing?
    ensures var t := s.threads[tid]; Inv(w, Teardown(s, tid, t.epoch, t.runId, t.rpc, a))
  {
    match s.threads[tid].rpc
    case ResetFinish(_) => ResetFinishKeeps(w, s, tid, a);
    case ResetTailClear(_, _) => ResetClearedKeeps(w, s, tid, a);
    case ResetTailSave(_, _) => ResetSavedKeeps(w, s, tid, a);
    case DeleteRecord => ResetReleasedKeeps(w, s, tid, a);
    case Release => ResetReleasedKeeps(w, s, tid, a);
    case _ => TeardownKeeps(w, s, tid, a);
  }

  lemma DecidingKeeps(w: Wiring, s: Sys, tid: nat, a: Answer)
    requires Inv(w, s) && tid in s.threads && s.threads[tid].Deciding?
    ensures var t := s.threads[tid]; Inv(w, Decision(s, tid, t.epoch, t.runId, t.prev, t.dpc, a))
  {
    match s.threads[tid].dpc
    case DecideSaving(_) => DecideSaveKeeps(w, s, tid, a);
    case DecideUndoing => DecideUndoKeeps(w, s, tid, a);
    case DecideSignalling => DecideSignalKeeps(w, s, tid, a);
  }

  lemma StoppingKeeps(w: Wiring, s: Sys, tid: nat, a: Answer)
    requires Inv(w, s) && tid in s.threads && s.threads[tid].Stopping?
    ensures var t := s.threads[tid]; Inv(w, Stop(s, tid, t.epoch, t.runId, t.spc, a))
  {
    match s.threads[tid].spc
    case StopEnsure => StopEnsureKeeps(w, s, tid, a);
    case StopRecording => StopRecordKeeps(w, s, tid, a);
    case StopFinish => StopFinishKeeps(w, s, tid, a);
    case StopTailClear(_) => StopClearKeeps(w, s, tid, a);
    case StopTailSave(_) => StopSaveKeeps(w, s, tid, a);
    case StopRelease => StopReleaseKeeps(w, s, tid, a);
  }

  lemma MoveKeeps(w: Wiring, s: Sys, tid: nat, a: Answer)
    requires Inv(w, s) && tid in s.threads
    ensures Inv(w, Move(w, s, tid, a))
  {
    match s.threads[tid]
    case Launching(_, _, _) => LaunchKeeps(w, s, tid, a);
    case Undoing(_, how, _) =>
      if how.ByStart? { UndoStartKeeps(w, s, tid, a); }
      else if how.ByRetry? { UndoRetryKeeps(w, s, tid, a); }
      else { UndoResetKeeps(w, s, tid, a); }
    case Closing(_) => ClosingKeeps(w, s, tid, a);
    case Executing(_, _) => ExecuteKeeps(w, s, tid, a);
    case Tearing(_, _, _) => TearingKeeps(w, s, tid, a);
    case Deciding(_, _, _, _) => DecidingKeeps(w, s, tid, a);
    case Discarding(_, _, _) => DiscardingKeeps(w, s, tid, a);
    case Stopping(_, _, _) => StoppingKeeps(w, s, tid, a);
    case Cancelling(_) => CancellingKeeps(w, s, tid, a);
  }

  lemma NextKeeps(w: Wiring, s: Sys, ev: Event)
    requires Inv(w, s)
    ensures Inv(w, Next(w, s, ev))
  {
    match ev
    case Advance(tid, a) => if tid in s.threads { MoveKeeps(w, s, tid, a); }
    case Mark(tid, name, index, total) => MarkKeeps(w, s, tid, name, index, total);
    case Vanish(runId) => VanishKeeps(w, s, runId);
    case _ => CallKeeps(w, s, ev);
  }
}
