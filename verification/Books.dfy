/**
 * The books of a run: its steps complete in order and once, Apply never runs on a bundle this
 * process did not build, and the recipe is written once.
 */
module Books {
  import opened Wrappers
  import opened Runs
  import opened EngineSpec
  import opened Machine
  import opened Structure
  import opened Recovery

  /** Which step writes the recipe and which the bundle path, where the books follow them. */
  datatype Plan = Plan(recommend: Option<int>, bundle: Option<int>)

  /** c is the one Recommend step. */
  predicate TheRecommend(steps: Pipeline, c: int) {
    0 <= c < |steps| && forall i :: 0 <= i < |steps| ==> (steps[i].phase == Recommend <==> i == c)
  }

  predicate Ordered(w: Wiring, p: Plan) {
    (p.recommend.Some? ==> TheRecommend(w.steps, p.recommend.value))
    && (p.bundle.Some? ==> TheBundle(w.steps, p.bundle.value))
  }

  /** Consecutive from base. */
  predicate Consecutive(done: seq<int>, base: int) {
    forall j :: 0 <= j < |done| ==> done[j] == base + j
  }

  /** The part of the history the books are kept in. */
  datatype Ledger = Ledger(used: set<string>, completed: map<string, seq<int>>, base: map<string, int>,
                           bundled: map<string, Bytes>, recipes: map<string, Bytes>)

  function LedgerOf(h: History): Ledger { Ledger(h.used, h.completed, h.base, h.bundled, h.recipes) }

  /** The run's place in the pipeline is what its completed steps add up to. */
  predicate InPlace(l: Ledger, r: Run) {
    && r.id in l.used && r.id in l.completed && r.id in l.base
    && l.base[r.id] + |l.completed[r.id]| == r.stepIndex && Consecutive(l.completed[r.id], l.base[r.id])
  }

  predicate RecipeOk(c: int, l: Ledger, r: Run) {
    && (RECIPE in r.artifacts ==> r.id in l.recipes && l.recipes[r.id] == r.artifacts[RECIPE])
    && (r.id in l.recipes ==> c < r.stepIndex)
  }

  /** A run that neither Retry nor Reset takes on, and so is never driven again. */
  predicate Frozen(w: Wiring, r: Run) {
    (r.state == Done || r.state == Active) && (r.components == [] || !SameCluster(w, r))
  }

  /** Past Bundle, the run's bundle path is the one this process's Bundle wrote, unless nothing is left to run. */
  predicate BundleOk(w: Wiring, b: int, l: Ledger, r: Run) {
    if r.id in l.bundled then BUNDLE_PATH in r.artifacts && r.artifacts[BUNDLE_PATH] == l.bundled[r.id]
    else r.stepIndex <= b || r.stepIndex >= |w.steps| || Frozen(w, r)
  }

  predicate Balanced(w: Wiring, p: Plan, l: Ledger, r: Run) {
    && InPlace(l, r)
    && (p.recommend.Some? ==> RecipeOk(p.recommend.value, l, r))
    && (p.bundle.Some? ==> BundleOk(w, p.bundle.value, l, r))
  }

  predicate RunBooks(w: Wiring, p: Plan, h: History, r: Run) { Balanced(w, p, LedgerOf(h), r) }

  /** key comes out of the step as it went in. */
  predicate HandsBack(key: string, scratch: Run, r: Run) {
    key in scratch.artifacts ==> key in r.artifacts && scratch.artifacts[key] == r.artifacts[key]
  }

  /** A scratch copy has the run's own recipe and bundle path, except out of the step that writes them. */
  predicate PcBooks(w: Wiring, pc: Pc, r: Run) {
    match pc
    case BeginSave(_, scratch) => scratch.artifacts == r.artifacts
    case Stepping(i, scratch, call) =>
      && scratch.artifacts == r.artifacts
      && (0 <= i < |w.steps| && w.steps[i].phase == Bundle ==> call.Whole?)
    case MergeOk(i, scratch) =>
      0 <= i < |w.steps| ==>
        && (w.steps[i].phase != Recommend ==> HandsBack(RECIPE, scratch, r))
        && (if w.steps[i].phase == Bundle then BUNDLE_PATH in scratch.artifacts else HandsBack(BUNDLE_PATH, scratch, r))
    case _ => true
  }

  predicate ThreadBooks(w: Wiring, p: Plan, s: Sys, t: Thread) {
    t.epoch == s.eng.epoch ==>
      match t
      case Launching(_, how, _) => how.ByStart? && how.previous.Some? ==> RunBooks(w, p, s.h, how.previous.value)
      case Undoing(_, how, _) => how.ByStart? && how.previous.Some? ==> RunBooks(w, p, s.h, how.previous.value)
      case Executing(_, pc) => CurrentLive(s) ==> PcBooks(w, pc, s.eng.current.value)
      case Discarding(_, gone, _) => RunBooks(w, p, s.h, gone.0)
      case _ => true
  }

  /** Only runs that were started or recovered are in the books. */
  predicate OnlyUsed(h: History) {
    (forall id :: id in h.recipes ==> id in h.used) && (forall id :: id in h.bundled ==> id in h.used)
  }

  predicate Booked(w: Wiring, p: Plan, s: Sys) {
    && OnlyUsed(s.h)
    && (s.eng.current.Some? ==> RunBooks(w, p, s.h, s.eng.current.value))
    && (forall tid :: tid in s.threads ==> ThreadBooks(w, p, s, s.threads[tid]))
  }

  predicate SameBooks(a: History, b: History) { LedgerOf(a) == LedgerOf(b) }

  // ---- frames ----

  /** The run keeps its place, its artifacts, and its rest if it is at rest. */
  predicate Carries(w: Wiring, a: Run, b: Run) {
    && a.id == b.id && a.stepIndex == b.stepIndex && a.artifacts == b.artifacts
    && (IsLive(a.state) || (Frozen(w, a) ==> Frozen(w, b)))
  }

  lemma CarriesBooks(w: Wiring, p: Plan, h: History, a: Run, b: Run)
    requires Carries(w, a, b) && RunBooks(w, p, h, a)
    ensures RunBooks(w, p, h, b)
  {
  }

  /** A thread moves, the books stay as they are, and the run carries over or is one a thread vouched for. */
  lemma BooksStay(w: Wiring, p: Plan, s: Sys, s': Sys, tid: nat)
    requires Booked(w, p, s) && tid in s.threads && ThreadsMove(s.threads, s'.threads, tid) && SameBooks(s.h, s'.h)
    requires s'.eng.epoch == s.eng.epoch
    requires s'.eng.current.Some? ==>
      RunBooks(w, p, s.h, s'.eng.current.value) ||
      (s.eng.current.Some? && Carries(w, s.eng.current.value, s'.eng.current.value))
    requires CurrentLive(s') ==> CurrentLive(s) && Carries(w, s.eng.current.value, s'.eng.current.value)
    requires tid in s'.threads ==> ThreadBooks(w, p, s', s'.threads[tid])
    ensures Booked(w, p, s')
  {
    hide Balanced, Frozen;
    if s'.eng.current.Some? && s.eng.current.Some? && Carries(w, s.eng.current.value, s'.eng.current.value) {
      CarriesBooks(w, p, s.h, s.eng.current.value, s'.eng.current.value);
    }
    forall u | u in s'.threads && u != tid
      ensures u in s.threads && ThreadBooks(w, p, s', s'.threads[u])
    {
      Untouched(s, s', tid, u);
    }
  }

  /** A goroutine's copies match the run it drives. */
  lemma DriverBooks(w: Wiring, p: Plan, s: Sys, tid: nat)
    requires Inv(w, s) && Booked(w, p, s) && tid in s.threads && Driver(s.threads[tid])
    ensures s.eng.current.Some? && RunBooks(w, p, s.h, s.eng.current.value) && ThreadBooks(w, p, s, s.threads[tid])
    ensures s.threads[tid].Executing? ==> PcBooks(w, s.threads[tid].pc, s.eng.current.value)
  {
    OneDriver(w, s, tid);
  }

  // ---- windows and the execute goroutine ----

  lemma LaunchBooks(w: Wiring, p: Plan, s: Sys, tid: nat, a: Answer)
    requires Inv(w, s) && Booked(w, p, s) && tid in s.threads && s.threads[tid].Launching?
    ensures Booked(w, p, Window(w, s, tid, s.threads[tid], a))
  {
    hide Inv, Booked, Balanced;
    DriverKnows(w, s, tid);
    DriverBooks(w, p, s, tid);
    BooksStay(w, p, s, Window(w, s, tid, s.threads[tid], a), tid);
  }

  lemma UndoStartBooks(w: Wiring, p: Plan, s: Sys, tid: nat, a: Answer)
    requires Inv(w, s) && Booked(w, p, s) && tid in s.threads && s.threads[tid].Undoing? && s.threads[tid].how.ByStart?
    ensures Booked(w, p, Window(w, s, tid, s.threads[tid], a))
  {
    hide Inv, Booked, Balanced;
    DriverKnows(w, s, tid);
    DriverBooks(w, p, s, tid);
    BooksStay(w, p, s, Window(w, s, tid, s.threads[tid], a), tid);
  }

  lemma UndoRetryBooks(w: Wiring, p: Plan, s: Sys, tid: nat, a: Answer)
    requires Inv(w, s) && Booked(w, p, s) && tid in s.threads && s.threads[tid].Undoing? && s.threads[tid].how.ByRetry?
    ensures Booked(w, p, Window(w, s, tid, s.threads[tid], a))
  {
    hide Inv, Booked, Balanced;
    DriverKnows(w, s, tid);
    DriverBooks(w, p, s, tid);
    BooksStay(w, p, s, Window(w, s, tid, s.threads[tid], a), tid);
  }

  lemma UndoResetBooks(w: Wiring, p: Plan, s: Sys, tid: nat, a: Answer)
    requires Inv(w, s) && Booked(w, p, s) && tid in s.threads && s.threads[tid].Undoing? && s.threads[tid].how.ByReset?
    ensures Booked(w, p, Window(w, s, tid, s.threads[tid], a))
  {
    hide Inv, Booked, Balanced;
    DriverKnows(w, s, tid);
    DriverBooks(w, p, s, tid);
    BooksStay(w, p, s, Window(w, s, tid, s.threads[tid], a), tid);
  }

  lemma ClosingBooks(w: Wiring, p: Plan, s: Sys, tid: nat, a: Answer)
    requires Booked(w, p, s) && tid in s.threads && s.threads[tid].Closing?
    ensures Booked(w, p, Window(w, s, tid, s.threads[tid], a))
  {
    hide Balanced;
    if s.threads[tid].epoch !in s.closed {
      BooksStay(w, p, s, Window(w, s, tid, s.threads[tid], a), tid);
    }
  }

  /** A step that is not the writer hands back the recipe, and the bundle path, it was given. */
  lemma StepHandsBack(w: Wiring, s: Sys, tid: nat, epoch: nat, i: int, scratch: Run, call: StepCall, a: Answer, r: Run)
    requires tid in s.threads && s.threads[tid] == Executing(epoch, Stepping(i, scratch, call))
    requires PcBooks(w, Stepping(i, scratch, call), r)
    ensures var s' := RunStep(w, s, tid, epoch, i, scratch, call, a);
            tid in s'.threads && s'.threads[tid].Executing? && PcBooks(w, s'.threads[tid].pc, r)
  {
  }

  lemma StepBooks(w: Wiring, p: Plan, s: Sys, tid: nat, a: Answer)
    requires Inv(w, s) && Booked(w, p, s) && tid in s.threads && s.threads[tid].Executing? &&
             s.threads[tid].pc.Stepping?
    ensures Booked(w, p, Execute(w, s, tid, s.threads[tid].epoch, s.threads[tid].pc, a))
  {
    hide Inv, Booked, Balanced, RunStep, PcBooks;
    var t := s.threads[tid];
    var s' := Execute(w, s, tid, t.epoch, t.pc, a);
    DriverKnows(w, s, tid);
    DriverBooks(w, p, s, tid);
    StepHandsBack(w, s, tid, t.epoch, t.pc.i, t.pc.scratch, t.pc.call, a, s.eng.current.value);
    RunStepShape(w, s, tid, t.epoch, t.pc.i, t.pc.scratch, t.pc.call, a);
    if s' != s {
      BooksStay(w, p, s, s', tid);
    }
  }

  lemma TopBooks(w: Wiring, p: Plan, s: Sys, tid: nat, a: Answer)
    requires Inv(w, s) && Booked(w, p, s) && tid in s.threads && s.threads[tid].Executing?
    requires var pc := s.threads[tid].pc; pc.Top?
    ensures Booked(w, p, Execute(w, s, tid, s.threads[tid].epoch, s.threads[tid].pc, a))
  {
    hide Inv, Booked, Balanced;
    var s' := Execute(w, s, tid, s.threads[tid].epoch, s.threads[tid].pc, a);
    DriverKnows(w, s, tid);
    DriverBooks(w, p, s, tid);
    if s' != s {
      BooksStay(w, p, s, s', tid);
    }
  }

  lemma AwaitBooks(w: Wiring, p: Plan, s: Sys, tid: nat, a: Answer)
    requires Inv(w, s) && Booked(w, p, s) && tid in s.threads && s.threads[tid].Executing? && s.threads[tid].pc.Await?
    ensures Booked(w, p, Execute(w, s, tid, s.threads[tid].epoch, s.threads[tid].pc, a))
  {
    hide Inv, Booked, Balanced, Execute;
    var t := s.threads[tid];
    DriverKnows(w, s, tid);
    DriverBooks(w, p, s, tid);
    AwaitIsGate(w, s, tid, t.epoch, t.pc.i, a);
    BooksStay(w, p, s, Execute(w, s, tid, t.epoch, t.pc, a), tid);
  }

  lemma GateBooks(w: Wiring, p: Plan, s: Sys, tid: nat, a: Answer)
    requires Inv(w, s) && Booked(w, p, s) && tid in s.threads && s.threads[tid].Executing?
    requires var pc := s.threads[tid].pc; pc.AwaitSave? || pc.Park?
    ensures Booked(w, p, Execute(w, s, tid, s.threads[tid].epoch, s.threads[tid].pc, a))
  {
    hide Inv, Booked, Balanced;
    var s' := Execute(w, s, tid, s.threads[tid].epoch, s.threads[tid].pc, a);
    DriverKnows(w, s, tid);
    DriverBooks(w, p, s, tid);
    if s' != s {
      BooksStay(w, p, s, s', tid);
    }
  }

  lemma BeginBooks(w: Wiring, p: Plan, s: Sys, tid: nat, a: Answer)
    requires Inv(w, s) && Booked(w, p, s) && tid in s.threads && s.threads[tid].Executing?
    requires var pc := s.threads[tid].pc; pc.Begin? || pc.BeginSave?
    ensures Booked(w, p, Execute(w, s, tid, s.threads[tid].epoch, s.threads[tid].pc, a))
  {
    hide Inv, Booked, Balanced;
    var s' := Execute(w, s, tid, s.threads[tid].epoch, s.threads[tid].pc, a);
    DriverKnows(w, s, tid);
    DriverBooks(w, p, s, tid);
    if s' != s {
      BooksStay(w, p, s, s', tid);
    }
  }

  lemma FailBooks(w: Wiring, p: Plan, s: Sys, tid: nat, a: Answer)
    requires Inv(w, s) && Booked(w, p, s) && tid in s.threads && s.threads[tid].Executing?
    requires var pc := s.threads[tid].pc; pc.MergeFail? || pc.FailClear?
    ensures Booked(w, p, Execute(w, s, tid, s.threads[tid].epoch, s.threads[tid].pc, a))
  {
    hide Inv, Booked, Balanced;
    var s' := Execute(w, s, tid, s.threads[tid].epoch, s.threads[tid].pc, a);
    DriverKnows(w, s, tid);
    DriverBooks(w, p, s, tid);
    if s' != s {
      BooksStay(w, p, s, s', tid);
    }
  }

  lemma OkBooks(w: Wiring, p: Plan, s: Sys, tid: nat, a: Answer)
    requires Inv(w, s) && Booked(w, p, s) && tid in s.threads && s.threads[tid].Executing?
    requires var pc := s.threads[tid].pc; pc.OkClear? || pc.OkSave?
    ensures Booked(w, p, Execute(w, s, tid, s.threads[tid].epoch, s.threads[tid].pc, a))
  {
    hide Inv, Booked, Balanced;
    var s' := Execute(w, s, tid, s.threads[tid].epoch, s.threads[tid].pc, a);
    DriverKnows(w, s, tid);
    DriverBooks(w, p, s, tid);
    if s' != s {
      BooksStay(w, p, s, s', tid);
    }
  }

  lemma FinishBooks(w: Wiring, p: Plan, s: Sys, tid: nat, a: Answer)
    requires Inv(w, s) && Booked(w, p, s) && tid in s.threads && s.threads[tid].Executing?
    requires var pc := s.threads[tid].pc; pc.Finish?
    ensures Booked(w, p, Execute(w, s, tid, s.threads[tid].epoch, s.threads[tid].pc, a))
  {
    hide Inv, Booked, Balanced;
    var s' := Execute(w, s, tid, s.threads[tid].epoch, s.threads[tid].pc, a);
    DriverKnows(w, s, tid);
    DriverBooks(w, p, s, tid);
    if s' != s {
      BooksStay(w, p, s, s', tid);
    }
  }

  lemma TailBooks(w: Wiring, p: Plan, s: Sys, tid: nat, a: Answer)
    requires Booked(w, p, s) && tid in s.threads && s.threads[tid].Executing?
    requires var pc := s.threads[tid].pc; pc.TailClear? || pc.TailSave?
    ensures Booked(w, p, Execute(w, s, tid, s.threads[tid].epoch, s.threads[tid].pc, a))
  {
    hide Balanced;
    BooksStay(w, p, s, Execute(w, s, tid, s.threads[tid].epoch, s.threads[tid].pc, a), tid);
  }

  // ---- the merge ----

  lemma MergedInPlace(w: Wiring, h: History, r: Run, merged: Run, i: int)
    requires InPlace(LedgerOf(h), r) && r.stepIndex == i && merged.id == r.id && merged.stepIndex == i + 1
    ensures InPlace(LedgerOf(Completed(w, h, merged, i)), merged)
  {
  }

  lemma MergedRecipe(w: Wiring, c: int, h: History, r: Run, scratch: Run, merged: Run, i: int)
    requires TheRecommend(w.steps, c) && RecipeOk(c, LedgerOf(h), r) && r.stepIndex == i && 0 <= i < |w.steps|
    requires merged.id == r.id && merged.stepIndex == i + 1 && merged.artifacts == r.artifacts + scratch.artifacts
    requires PcBooks(w, MergeOk(i, scratch), r)
    ensures RecipeOk(c, LedgerOf(Completed(w, h, merged, i)), merged)
  {
  }

  lemma MergedBundle(w: Wiring, b: int, h: History, r: Run, scratch: Run, merged: Run, i: int)
    requires TheBundle(w.steps, b) && BundleOk(w, b, LedgerOf(h), r) && r.stepIndex == i && 0 <= i < |w.steps|
    requires merged.id == r.id && merged.stepIndex == i + 1 && merged.artifacts == r.artifacts + scratch.artifacts
    requires PcBooks(w, MergeOk(i, scratch), r) && IsLive(r.state)
    ensures BundleOk(w, b, LedgerOf(Completed(w, h, merged, i)), merged)
  {
  }

  /** What a merge of step i makes of balanced books. */
  lemma Merged(w: Wiring, p: Plan, h: History, r: Run, scratch: Run, merged: Run, i: int)
    requires Ordered(w, p) && RunBooks(w, p, h, r) && r.stepIndex == i && 0 <= i < |w.steps| && IsLive(r.state)
    requires merged.id == r.id && merged.stepIndex == i + 1 && merged.artifacts == r.artifacts + scratch.artifacts
    requires PcBooks(w, MergeOk(i, scratch), r)
    ensures RunBooks(w, p, Completed(w, h, merged, i), merged)
  {
    hide InPlace, RecipeOk, BundleOk, Completed, LedgerOf, PcBooks;
    MergedInPlace(w, h, r, merged, i);
    if p.recommend.Some? { MergedRecipe(w, p.recommend.value, h, r, scratch, merged, i); }
    if p.bundle.Some? { MergedBundle(w, p.bundle.value, h, r, scratch, merged, i); }
  }

  /** The merge: the next step joins the completed ones, and the two artifacts only out of their writers. */
  lemma MergeBooks(w: Wiring, p: Plan, s: Sys, tid: nat, a: Answer)
    requires Ordered(w, p) && Inv(w, s) && Booked(w, p, s)
    requires tid in s.threads && s.threads[tid].Executing? && s.threads[tid].pc.MergeOk?
    ensures Booked(w, p, Execute(w, s, tid, s.threads[tid].epoch, s.threads[tid].pc, a))
  {
    hide Inv, Booked, Balanced, Completed, Ordered, PcBooks;
    var t := s.threads[tid];
    var s' := Execute(w, s, tid, t.epoch, t.pc, a);
    DriverKnows(w, s, tid);
    DriverBooks(w, p, s, tid);
    Merged(w, p, s.h, s.eng.current.value, t.pc.scratch, s'.eng.current.value, t.pc.i);
    MergeSettles(w, p, s, s', tid);
  }

  /** Nobody but the driver is in the books of a run being driven. */
  lemma MergeSettles(w: Wiring, p: Plan, s: Sys, s': Sys, tid: nat)
    requires Inv(w, s) && Booked(w, p, s) && tid in s.threads && s.threads[tid].Executing? && s.threads[tid].pc.MergeOk?
    requires tid in s'.threads && s'.threads == s.threads[tid := s'.threads[tid]]
    requires s'.threads[tid].Executing? && s'.threads[tid].pc.OkClear?
    requires s'.eng.epoch == s.eng.epoch && s'.eng.current.Some? && RunBooks(w, p, s'.h, s'.eng.current.value)
    requires s'.h == Completed(w, s.h, s'.eng.current.value, s.threads[tid].pc.i)
    requires s'.eng.current.value.id == s.eng.current.value.id
    ensures Booked(w, p, s')
  {
    hide Balanced;
    OneDriver(w, s, tid);
    assert s.eng.current.value.id in s.h.used by { UsedId(w, p, s.h, s.eng.current.value); }
    forall u | u in s'.threads && u != tid
      ensures u in s.threads && s'.threads[u] == s.threads[u] && ThreadBooks(w, p, s', s'.threads[u])
    {
      assert CallOk(ViewOf(w, s), u, s.threads[u]);
    }
  }

  lemma UsedId(w: Wiring, p: Plan, h: History, r: Run)
    requires RunBooks(w, p, h, r)
    ensures r.id in h.used
  {
  }

  lemma LookingBooks(w: Wiring, p: Plan, s: Sys, tid: nat, a: Answer)
    requires Inv(w, s) && Booked(w, p, s) && tid in s.threads && s.threads[tid].Tearing?
    requires var rpc := s.threads[tid].rpc; rpc.Look? || rpc.Ensure? || rpc.Uninstall?
    ensures var t := s.threads[tid]; Booked(w, p, Teardown(s, tid, t.epoch, t.runId, t.rpc, a))
  {
    hide Inv, Booked, Balanced, AnyFailed;
    var t := s.threads[tid];
    var s' := Teardown(s, tid, t.epoch, t.runId, t.rpc, a);
    DriverKnows(w, s, tid);
    DriverBooks(w, p, s, tid);
    if s' != s {
      BooksStay(w, p, s, s', tid);
    }
  }

  lemma RecordingBooks(w: Wiring, p: Plan, s: Sys, tid: nat, a: Answer)
    requires Inv(w, s) && Booked(w, p, s) && tid in s.threads && s.threads[tid].Tearing?
    requires var rpc := s.threads[tid].rpc; rpc.Record? || rpc.Review?
    ensures var t := s.threads[tid]; Booked(w, p, Teardown(s, tid, t.epoch, t.runId, t.rpc, a))
  {
    hide Inv, Booked, Balanced, AnyFailed;
    var t := s.threads[tid];
    var s' := Teardown(s, tid, t.epoch, t.runId, t.rpc, a);
    DriverKnows(w, s, tid);
    DriverBooks(w, p, s, tid);
    if s' != s {
      BooksStay(w, p, s, s', tid);
    }
  }

  lemma ResetFinishBooks(w: Wiring, p: Plan, s: Sys, tid: nat, a: Answer)
    requires Inv(w, s) && Booked(w, p, s) && tid in s.threads && s.threads[tid].Tearing?
    requires var rpc := s.threads[tid].rpc; rpc.ResetFinish?
    ensures var t := s.threads[tid]; Booked(w, p, Teardown(s, tid, t.epoch, t.runId, t.rpc, a))
  {
    hide Inv, Booked, Balanced, AnyFailed;
    var t := s.threads[tid];
    var s' := Teardown(s, tid, t.epoch, t.runId, t.rpc, a);
    DriverKnows(w, s, tid);
    DriverBooks(w, p, s, tid);
    if s' != s {
      BooksStay(w, p, s, s', tid);
    }
  }

  lemma TornSaveBooks(w: Wiring, p: Plan, s: Sys, tid: nat, a: Answer)
    requires Booked(w, p, s) && tid in s.threads && s.threads[tid].Tearing? &&
             (s.threads[tid].rpc.ResetTailClear? || s.threads[tid].rpc.ResetTailSave?)
    ensures var t := s.threads[tid]; Booked(w, p, Teardown(s, tid, t.epoch, t.runId, t.rpc, a))
  {
    hide Balanced;
    var t := s.threads[tid];
    BooksStay(w, p, s, Teardown(s, tid, t.epoch, t.runId, t.rpc, a), tid);
  }

  lemma TornReleaseBooks(w: Wiring, p: Plan, s: Sys, tid: nat, a: Answer)
    requires Booked(w, p, s) && tid in s.threads && s.threads[tid].Tearing? &&
             (s.threads[tid].rpc.DeleteRecord? || s.threads[tid].rpc.Release?)
    ensures var t := s.threads[tid]; Booked(w, p, Teardown(s, tid, t.epoch, t.runId, t.rpc, a))
  {
    hide Balanced;
    var t := s.threads[tid];
    BooksStay(w, p, s, Teardown(s, tid, t.epoch, t.runId, t.rpc, a), tid);
  }

  lemma DecideUndoBooks(w: Wiring, p: Plan, s: Sys, tid: nat, a: Answer)
    requires Booked(w, p, s) && tid in s.threads && s.threads[tid].Deciding? && s.threads[tid].dpc.DecideUndoing?
    ensures var t := s.threads[tid]; Booked(w, p, Decision(s, tid, t.epoch, t.runId, t.prev, t.dpc, a))
  {
    hide Booked, Balanced;
    var t := s.threads[tid];
    BooksStay(w, p, s, Decision(s, tid, t.epoch, t.runId, t.prev, t.dpc, a), tid);
  }

  lemma DecidingBooks(w: Wiring, p: Plan, s: Sys, tid: nat, a: Answer)
    requires Booked(w, p, s) && tid in s.threads && s.threads[tid].Deciding? && !s.threads[tid].dpc.DecideUndoing?
    ensures var t := s.threads[tid]; Booked(w, p, Decision(s, tid, t.epoch, t.runId, t.prev, t.dpc, a))
  {
    hide Booked, Balanced;
    var t := s.threads[tid];
    BooksStay(w, p, s, Decision(s, tid, t.epoch, t.runId, t.prev, t.dpc, a), tid);
  }

  lemma DiscardingBooks(w: Wiring, p: Plan, s: Sys, tid: nat, a: Answer)
    requires Inv(w, s) && Booked(w, p, s) && tid in s.threads &&
             (s.threads[tid].Discarding? || s.threads[tid].Cancelling?)
    ensures Booked(w, p, Move(w, s, tid, a))
  {
    hide Balanced, DriverOk;
    assert CallOk(ViewOf(w, s), tid, s.threads[tid]);
    BooksStay(w, p, s, Move(w, s, tid, a), tid);
  }

  lemma StoppingBooks(w: Wiring, p: Plan, s: Sys, tid: nat, a: Answer)
    requires Inv(w, s) && Booked(w, p, s) && tid in s.threads && s.threads[tid].Stopping? &&
             (s.threads[tid].spc.StopEnsure? || s.threads[tid].spc.StopRecording? || s.threads[tid].spc.StopFinish?)
    ensures var t := s.threads[tid]; Booked(w, p, Stop(s, tid, t.epoch, t.runId, t.spc, a))
  {
    hide Balanced, DriverOk;
    var t := s.threads[tid];
    assert CallOk(ViewOf(w, s), tid, t);
    BooksStay(w, p, s, Stop(s, tid, t.epoch, t.runId, t.spc, a), tid);
  }

  lemma StopTailBooks(w: Wiring, p: Plan, s: Sys, tid: nat, a: Answer)
    requires Inv(w, s) && Booked(w, p, s) && tid in s.threads && s.threads[tid].Stopping? &&
             (s.threads[tid].spc.StopTailClear? || s.threads[tid].spc.StopTailSave? || s.threads[tid].spc.StopRelease?)
    ensures var t := s.threads[tid]; Booked(w, p, Stop(s, tid, t.epoch, t.runId, t.spc, a))
  {
    hide Balanced, DriverOk;
    var t := s.threads[tid];
    assert CallOk(ViewOf(w, s), tid, t);
    BooksStay(w, p, s, Stop(s, tid, t.epoch, t.runId, t.spc, a), tid);
  }

  // ---- API calls ----

  /** A fresh ID opens fresh books and leaves every other run's alone. */
  lemma StartBooks(w: Wiring, p: Plan, s: Sys, ev: Event)
    requires Ordered(w, p) && Inv(w, s) && Booked(w, p, s) && ev.CallStart?
    ensures Booked(w, p, Call(w, s, ev))
  {
    var s' := Call(w, s, ev);
    if s' != s {
      forall u | u in s'.threads
        ensures ThreadBooks(w, p, s', s'.threads[u])
      {
      }
    }
  }

  lemma RetryBooks(w: Wiring, p: Plan, s: Sys, ev: Event)
    requires Inv(w, s) && Booked(w, p, s) && ev.CallRetry?
    ensures Booked(w, p, Call(w, s, ev))
  {
    hide Balanced;
    var s' := Call(w, s, ev);
    if s' != s && s'.eng.current.Some? {
      assert Carries(w, s.eng.current.value, s'.eng.current.value);
      CarriesBooks(w, p, s.h, s.eng.current.value, s'.eng.current.value);
    }
    forall u | u in s'.threads
      ensures ThreadBooks(w, p, s', s'.threads[u])
    {
    }
  }

  lemma ResetBooks(w: Wiring, p: Plan, s: Sys, ev: Event)
    requires Inv(w, s) && Booked(w, p, s) && ev.CallReset?
    ensures Booked(w, p, Call(w, s, ev))
  {
    hide Balanced;
    var s' := Call(w, s, ev);
    if s' != s && s'.eng.current.Some? {
      assert Carries(w, s.eng.current.value, s'.eng.current.value);
      CarriesBooks(w, p, s.h, s.eng.current.value, s'.eng.current.value);
    }
    forall u | u in s'.threads
      ensures ThreadBooks(w, p, s', s'.threads[u])
    {
    }
  }

  lemma DecideBooks(w: Wiring, p: Plan, s: Sys, ev: Event)
    requires Inv(w, s) && Booked(w, p, s) && ev.CallDecide?
    ensures Booked(w, p, Call(w, s, ev))
  {
    hide Inv, Balanced, Frozen, PcBooks;
    var s' := Call(w, s, ev);
    if s' != s {
      assert Carries(w, s.eng.current.value, s'.eng.current.value);
      CarriesBooks(w, p, s.h, s.eng.current.value, s'.eng.current.value);
      AcceptedSettles(w, p, s, s', ev.tid);
    }
  }

  /** An accepted Decide joins the threads, and the run keeps its artifacts. */
  lemma AcceptedSettles(w: Wiring, p: Plan, s: Sys, s': Sys, tid: nat)
    requires Booked(w, p, s) && tid !in s.threads && tid in s'.threads
    requires s'.threads == s.threads[tid := s'.threads[tid]]
    requires s'.threads[tid].Deciding? && s'.eng.epoch == s.eng.epoch && LedgerOf(s'.h) == LedgerOf(s.h)
    requires s.eng.current.Some? && s'.eng.current.Some? && RunBooks(w, p, s.h, s'.eng.current.value)
    requires CurrentLive(s) && s'.eng.current.value.artifacts == s.eng.current.value.artifacts
    ensures Booked(w, p, s')
  {
    hide Balanced;
    forall u | u in s.threads ensures ThreadBooks(w, p, s', s.threads[u]) {
      assert ThreadBooks(w, p, s, s.threads[u]);
    }
  }

  lemma DiscardBooks(w: Wiring, p: Plan, s: Sys, ev: Event)
    requires Inv(w, s) && Booked(w, p, s) && ev.CallDiscard?
    ensures Booked(w, p, Call(w, s, ev))
  {
    hide Balanced;
    var s' := Call(w, s, ev);
    forall u | u in s'.threads
      ensures ThreadBooks(w, p, s', s'.threads[u])
    {
    }
  }

  lemma StopBooks(w: Wiring, p: Plan, s: Sys, ev: Event)
    requires Inv(w, s) && Booked(w, p, s) && (ev.CallStop? || ev.CallCancel?)
    ensures Booked(w, p, Call(w, s, ev))
  {
    hide Balanced;
    var s' := Call(w, s, ev);
    if s' != s && s'.eng.current.Some? {
      assert Carries(w, s.eng.current.value, s'.eng.current.value);
      CarriesBooks(w, p, s.h, s.eng.current.value, s'.eng.current.value);
    }
    forall u | u in s'.threads
      ensures ThreadBooks(w, p, s', s'.threads[u])
    {
    }
  }

  // ---- every event keeps the books ----

  lemma ExecuteBooks(w: Wiring, p: Plan, s: Sys, tid: nat, a: Answer)
    requires Ordered(w, p) && Inv(w, s) && Booked(w, p, s) && tid in s.threads && s.threads[tid].Executing?
    ensures Booked(w, p, Execute(w, s, tid, s.threads[tid].epoch, s.threads[tid].pc, a))
  {
    match s.threads[tid].pc
    case Top => TopBooks(w, p, s, tid, a);
    case Await(_) => AwaitBooks(w, p, s, tid, a);
    case AwaitSave(_, _, _) => GateBooks(w, p, s, tid, a);
    case Park(_, _) => GateBooks(w, p, s, tid, a);
    case Begin(_) => BeginBooks(w, p, s, tid, a);
    case BeginSave(_, _) => BeginBooks(w, p, s, tid, a);
    case MergeFail(_, _, _) => FailBooks(w, p, s, tid, a);
    case FailClear(_) => FailBooks(w, p, s, tid, a);
    case Stepping(_, _, _) => StepBooks(w, p, s, tid, a);
    case MergeOk(_, _) => MergeBooks(w, p, s, tid, a);
    case OkClear(_, _) => OkBooks(w, p, s, tid, a);
    case OkSave(_) => OkBooks(w, p, s, tid, a);
    case Finish(_) => FinishBooks(w, p, s, tid, a);
    case TailClear(_) => TailBooks(w, p, s, tid, a);
    case TailSave(_) => TailBooks(w, p, s, tid, a);
  }

  lemma MoveBooks(w: Wiring, p: Plan, s: Sys, tid: nat, a: Answer)
    requires Ordered(w, p) && Inv(w, s) && Booked(w, p, s) && tid in s.threads
    ensures Booked(w, p, Move(w, s, tid, a))
  {
    match s.threads[tid]
    case Launching(_, _, _) => LaunchBooks(w, p, s, tid, a);
    case Undoing(_, how, _) =>
      if how.ByStart? { UndoStartBooks(w, p, s, tid, a); }
      else if how.ByRetry? { UndoRetryBooks(w, p, s, tid, a); }
      else { UndoResetBooks(w, p, s, tid, a); }
    case Closing(_) => ClosingBooks(w, p, s, tid, a);
    case Executing(_, _) => ExecuteBooks(w, p, s, tid, a);
    case Tearing(_, _, rpc) =>
      if rpc.Look? || rpc.Ensure? || rpc.Uninstall? { LookingBooks(w, p, s, tid, a); }
      else if rpc.Record? || rpc.Review? { RecordingBooks(w, p, s, tid, a); }
      else if rpc.ResetFinish? { ResetFinishBooks(w, p, s, tid, a); }
      else if rpc.DeleteRecord? || rpc.Release? { TornReleaseBooks(w, p, s, tid, a); }
      else { TornSaveBooks(w, p, s, tid, a); }
    case Deciding(_, _, _, dpc) =>
      if dpc.DecideUndoing? { DecideUndoBooks(w, p, s, tid, a); } else { DecidingBooks(w, p, s, tid, a); }
    case Stopping(_, _, spc) =>
      if spc.StopEnsure? || spc.StopRecording? || spc.StopFinish? { StoppingBooks(w, p, s, tid, a); }
      else { StopTailBooks(w, p, s, tid, a); }
    case _ => DiscardingBooks(w, p, s, tid, a);
  }

  lemma UnseenBooks(w: Wiring, p: Plan, s: Sys, ev: Event)
    requires Booked(w, p, s) && (ev.Mark? || ev.Vanish?)
    ensures Booked(w, p, Next(w, s, ev))
  {
    hide Balanced;
    assert LedgerOf(Next(w, s, ev).h) == LedgerOf(s.h);
  }

  lemma NextBooks(w: Wiring, p: Plan, s: Sys, ev: Event)
    requires Ordered(w, p) && Inv(w, s) && Booked(w, p, s)
    ensures Booked(w, p, Next(w, s, ev))
  {
    hide Inv, Booked, Move, Call, Marked;
    match ev
    case Advance(tid, a) => if tid in s.threads { MoveBooks(w, p, s, tid, a); }
    case CallStart(_, _, _) => StartBooks(w, p, s, ev);
    case CallRetry(_, _, _) => RetryBooks(w, p, s, ev);
    case CallReset(_, _, _, _, _) => ResetBooks(w, p, s, ev);
    case CallDecide(_, _, _, _) => DecideBooks(w, p, s, ev);
    case CallDiscard(_, _) => DiscardBooks(w, p, s, ev);
    case Mark(_, _, _, _) => UnseenBooks(w, p, s, ev);
    case Vanish(_) => UnseenBooks(w, p, s, ev);
    case _ => StopBooks(w, p, s, ev);
  }

  /** Once a run has a recipe, no event changes it. */
  lemma RecipeStays(w: Wiring, p: Plan, s: Sys, ev: Event, id: string)
    requires p.recommend.Some? && Ordered(w, p) && Inv(w, s) && Booked(w, p, s) && id in s.h.recipes
    ensures var s' := Next(w, s, ev); id in s'.h.recipes && s'.h.recipes[id] == s.h.recipes[id]
  {
    NextRemembers(w, s, ev);
    if Merges(s, ev) {
      MergeKeepsRecipe(w, p, s, ev.tid, ev.a, id);
    }
  }

  lemma MergeKeepsRecipe(w: Wiring, p: Plan, s: Sys, tid: nat, a: Answer, id: string)
    requires p.recommend.Some? && Ordered(w, p) && Inv(w, s) && Booked(w, p, s) && id in s.h.recipes
    requires tid in s.threads && s.threads[tid].Executing? && s.threads[tid].pc.MergeOk?
    ensures var h := Execute(w, s, tid, s.threads[tid].epoch, s.threads[tid].pc, a).h;
            id in h.recipes && h.recipes[id] == s.h.recipes[id]
  {
    hide Inv, Booked;
    DriverKnows(w, s, tid);
    DriverBooks(w, p, s, tid);
  }

  lemma MergeBundles(w: Wiring, s: Sys, tid: nat, a: Answer, id: string)
    requires tid in s.threads && s.threads[tid].Executing? && s.threads[tid].pc.MergeOk? && s.eng.current.Some?
    requires s.threads[tid].epoch == s.eng.epoch && 0 <= s.threads[tid].pc.i < |w.steps|
    requires s.threads[tid].pc.scratch.id == s.eng.current.value.id
    requires PcBooks(w, s.threads[tid].pc, s.eng.current.value)
    requires var h := Execute(w, s, tid, s.threads[tid].epoch, s.threads[tid].pc, a).h;
             id in h.bundled && !(id in s.h.bundled && s.h.bundled[id] == h.bundled[id])
    ensures var t, h := s.threads[tid], Execute(w, s, tid, s.threads[tid].epoch, s.threads[tid].pc, a).h;
            && w.steps[t.pc.i].phase == Bundle && t.pc.scratch.id == id
            && BUNDLE_PATH in t.pc.scratch.artifacts && h.bundled[id] == t.pc.scratch.artifacts[BUNDLE_PATH]
  {
  }

  /** A bundle path enters the books only out of a merging Bundle step, and is what that step wrote. */
  lemma BundledByBundle(w: Wiring, p: Plan, s: Sys, ev: Event, id: string)
    requires Inv(w, s) && Booked(w, p, s)
    requires var h := Next(w, s, ev).h; id in h.bundled && !(id in s.h.bundled && s.h.bundled[id] == h.bundled[id])
    ensures Merges(s, ev)
    ensures var pc := s.threads[ev.tid].pc;
            && 0 <= pc.i < |w.steps| && w.steps[pc.i].phase == Bundle && pc.scratch.id == id
            && BUNDLE_PATH in pc.scratch.artifacts && Next(w, s, ev).h.bundled[id] == pc.scratch.artifacts[BUNDLE_PATH]
  {
    NextRemembers(w, s, ev);
    assert Merges(s, ev);
    hide Inv, Booked, PcBooks;
    DriverKnows(w, s, ev.tid);
    DriverBooks(w, p, s, ev.tid);
    MergeBundles(w, s, ev.tid, ev.a, id);
  }
}
