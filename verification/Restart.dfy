/**
 * A process booting on the record Recover installed: what the invariants need of that record, and
 * exactly which records let a step run on a bundle this process never built.
 */
module Restart {
  import opened Wrappers
  import opened Runs
  import opened EngineSpec
  import opened Machine
  import opened Structure
  import opened Recovery
  import opened Safety
  import Decisions
  import Books

  /** The history a process starts with: what its record holds was decided and saved before it. */
  function BootHistory(current: Option<Run>): History {
    match current
    case None => History(map[], 0, 0, "", {}, {}, {}, map[], map[], map[], map[], false, {})
    case Some(r) =>
      History(map[], 0, 0, r.id, {r.id}, Keys(r), Keys(r), map[r.id := []], map[r.id := r.stepIndex], map[],
              if RECIPE in r.artifacts then map[r.id := r.artifacts[RECIPE]] else map[], false, {})
  }

  function Boot(current: Option<Run>, workloads: set<string>): Sys {
    Sys(NEW_ENGINE.(current := current, recoveredPending := current.Some?), map[], {}, {}, workloads, false,
      BootHistory(current))
  }

  /** Every record Recover installs, and no record at all, boots into a state the theorems start from. */
  lemma RecoveredBoots(w: Wiring, b: int, load: Load, workloads: set<string>)
    requires TheBundle(w.steps, b) && RecoverSpec(w, Some(b), load).Installed?
    ensures var s := Boot(Some(RecoverSpec(w, Some(b), load).run), workloads);
            && Booted(s) && Decisions.Vouched(w, s)
            && Booted(Boot(None, workloads)) && Decisions.Vouched(w, Boot(None, workloads))
  {
  }

  /** The recipe books balance on boot exactly when the record has no recipe from before its Recommend step. */
  lemma BootBooksExactly(w: Wiring, c: int, r: Run, workloads: set<string>)
    requires Books.TheRecommend(w.steps, c)
    ensures Books.Booked(w, Books.Plan(Some(c), None), Boot(Some(r), workloads)) <==>
            (RECIPE in r.artifacts ==> c < r.stepIndex)
  {
    var s := Boot(Some(r), workloads);
    if RECIPE in r.artifacts { assert r.id in s.h.recipes; }
  }

  // ---- the promise about bundles ----

  /** Whatever happens, a goroutine past the Bundle step works with the path this process's Bundle wrote. */
  ghost predicate BundlePromise(w: Wiring, b: int, s: Sys) {
    forall evs, tid :: PastBundle(w, b, After(w, s, evs), tid) ==> OwnBundle(After(w, s, evs), tid)
  }

  /** A record that Recover leaves past Bundle, and that a Reset will take on. */
  predicate KeepsLostBundle(w: Wiring, b: int, r: Run) {
    && (r.state == Done || r.state == Active) && b < r.stepIndex < |w.steps|
    && r.components != [] && SameCluster(w, r)
  }

  /**
   * The promise holds of the process a valid record boots exactly when that record is not one Recover
   * leaves past Bundle and a Reset takes on.
   */
  lemma RecoveredBundleExactly(w: Wiring, b: int, r: Run, workloads: set<string>)
    requires TheBundle(w.steps, b) && ValidLoaded(w.steps, r)
    ensures BundlePromise(w, b, Boot(Some(Normalised(b, r)), workloads)) <==> !KeepsLostBundle(w, b, r)
  {
    var s := Boot(Some(Normalised(b, r)), workloads);
    if KeepsLostBundle(w, b, r) {
      var evs := LostBundleApplied(w, b, Normalised(b, r), workloads);
    } else {
      var p := Books.Plan(None, Some(b));
      assert Books.Booked(w, p, s);
      forall evs, tid | PastBundle(w, b, After(w, s, evs), tid) ensures OwnBundle(After(w, s, evs), tid) {
        ApplyHasItsBundle(w, p, s, evs, tid);
      }
    }
  }

  // ---- the schedule that breaks it: a Reset that cannot save its checkpoint, then a Retry ----

  const BLANK := Run("", Failed, NoPhase, map[], map[], [], [], NO_WORKLOAD, 0, "", false, "", map[], 0, 0, [],
                     NO_OWNERSHIP, NO_RESIDUE, NO_VALIDATION, NO_AGENT_NAMESPACE)
  const NO := Answer(false, false, BLANK, [], "", 1)
  const YES := Answer(true, false, BLANK, [], "", 1)

  lemma OneMore(w: Wiring, s: Sys, evs: seq<Event>, ev: Event)
    ensures After(w, s, evs + [ev]) == Next(w, After(w, s, evs), ev)
  {
    assert (evs + [ev])[..|evs|] == evs;
  }

  /** What the schedule knows of the engine and the run all along: nobody else moves, and nothing was bundled. */
  predicate Undisturbed(s: Sys, r: Run, epoch: nat) {
    && s.eng.epoch == epoch && !s.eng.draining && s.eng.full == {} && !s.h.released && 1 !in s.threads
    && Holds(s.eng, r.id) && s.eng.current.value.stepIndex == r.stepIndex && r.id !in s.h.bundled
  }

  lemma ResetAccepted(w: Wiring, s: Sys, r: Run)
    requires s.threads == map[] && s.closed == {} && Undisturbed(s, r, 0) && s.eng.current == Some(r)
    requires (r.state == Done || r.state == Active) && r.components != [] && SameCluster(w, r)
    ensures var t := Next(w, s, CallReset(0, r.id, true, true, 1));
            && t.threads.Keys == {0} && t.threads[0].Launching? && t.threads[0].epoch == 1 &&
              t.threads[0].how == ByReset
            && t.threads[0].snapshot.id == r.id && t.closed == {} && Undisturbed(t, r, 1)
            && t.eng.current == Some(r.(state := Resetting, err := "", residue := NO_RESIDUE, updatedAt := 1))
  {
  }

  lemma ResetUndone(w: Wiring, s: Sys, r: Run, live: Run)
    requires s.threads.Keys == {0} && s.threads[0].Launching? && s.threads[0].epoch == 1 && s.threads[0].how == ByReset
    requires s.threads[0].snapshot.id == r.id && s.closed == {} && Undisturbed(s, r, 1) && s.eng.current == Some(live)
    ensures var t := Next(w, Next(w, s, Advance(0, NO)), Advance(0, NO));
            && t.threads == map[0 := Closing(1)] && t.closed == {} && Undisturbed(t, r, 1)
            && t.eng.current == Some(live.(state := Failed, updatedAt := 1))
  {
    assert Next(w, s, Advance(0, NO)).threads == map[0 := Undoing(1, ByReset, r.id)];
  }

  lemma ResetClosed(w: Wiring, s: Sys, r: Run)
    requires s.threads == map[0 := Closing(1)] && s.closed == {} && Undisturbed(s, r, 1)
    ensures var t := Next(w, s, Advance(0, NO));
            t.threads == map[] && t.eng == s.eng && Undisturbed(t, r, 1)
  {
  }

  lemma Retried(w: Wiring, s: Sys, r: Run)
    requires s.threads == map[] && Undisturbed(s, r, 1) && s.eng.current.value.state == Failed
    requires !s.eng.current.value.residue.incomplete
    ensures var t := Next(w, Next(w, s, CallRetry(0, r.id, 1)), Advance(0, YES));
            && t.threads == map[0 := Executing(2, Top)] && Undisturbed(t, r, 2) && t.eng.resume == 2
            && t.eng.current.value.state == Running
  {
    var s1 := Next(w, s, CallRetry(0, r.id, 1));
    assert s1.threads.Keys == {0} && s1.threads[0].Launching? && s1.threads[0].epoch == 2;
  }

  /** The goroutine stands before the gate of the run's next step. */
  predicate BeforeGate(w: Wiring, s: Sys, r: Run) {
    && s.threads == map[0 := Executing(2, Await(r.stepIndex))] && Undisturbed(s, r, 2) && s.eng.resume == 2
    && 0 <= r.stepIndex < |w.steps|
  }

  lemma ToGate(w: Wiring, s: Sys, r: Run)
    requires s.threads == map[0 := Executing(2, Top)] && Undisturbed(s, r, 2) && s.eng.resume == 2
    requires 0 <= r.stepIndex < |w.steps|
    ensures BeforeGate(w, Next(w, s, Advance(0, YES)), r)
  {
  }

  /** Nothing missing: the step begins. */
  lemma GateOpens(w: Wiring, s: Sys, r: Run)
    requires BeforeGate(w, s, r) && forall k :: k in w.steps[r.stepIndex].requires_ ==>
             k in s.eng.current.value.decisions
    ensures var t := Next(w, s, Advance(0, YES));
            t.threads == map[0 := Executing(2, Begin(r.stepIndex))] && Undisturbed(t, r, 2)
  {
    NoneMissing(w.steps[r.stepIndex].requires_, s.eng.current.value.decisions);
  }

  /** Something missing: the run parks asking for it. */
  predicate AtPark(w: Wiring, s: Sys, r: Run) {
    && s.threads == map[0 := Executing(2, Park(r.stepIndex, 2))] && Undisturbed(s, r, 2) && s.eng.resume == 2
    && 0 <= r.stepIndex < |w.steps| && s.eng.current.value.state == AwaitingDecision
    && forall k :: k in w.steps[r.stepIndex].requires_ ==>
        k in s.eng.current.value.decisions || k in s.eng.current.value.pending
  }

  lemma GateParks(w: Wiring, s: Sys, r: Run)
    requires BeforeGate(w, s, r) && Missing(w.steps[r.stepIndex].requires_, s.eng.current.value.decisions) != []
    ensures AtPark(w, Next(w, Next(w, s, Advance(0, YES)), Advance(0, YES)), r)
  {
    MissingExact(w.steps[r.stepIndex].requires_, s.eng.current.value.decisions);
    var s1 := Next(w, s, Advance(0, YES));
    assert s1.threads.Keys == {0} && s1.threads[0].Executing? && s1.threads[0].pc.AwaitSave?;
    assert s1.threads[0].epoch == 2 && s1.threads[0].pc.i == r.stepIndex && s1.threads[0].pc.channel == 2;
  }

  /** The answers a parked run asks for. */
  function AnswersTo(s: Sys): map<string, string>
    requires s.eng.current.Some?
  {
    map k | k in s.eng.current.value.pending :: ""
  }

  /** The goroutine parked, its keys answered, and the Decide about to signal it. */
  predicate Answered(w: Wiring, s: Sys, r: Run) {
    && s.threads.Keys == {0, 1} && s.threads[0] == Executing(2, Park(r.stepIndex, 2))
    && s.threads[1].Deciding? && s.threads[1].epoch == 2 && s.threads[1].runId == r.id
    && Undisturbed(s.(threads := s.threads - {1}), r, 2) && s.eng.resume == 2 && 0 <= r.stepIndex < |w.steps|
    && forall k :: k in w.steps[r.stepIndex].requires_ ==> k in s.eng.current.value.decisions
  }

  lemma Decides(w: Wiring, s: Sys, r: Run)
    requires AtPark(w, s, r)
    ensures var t := Next(w, s, CallDecide(1, r.id, AnswersTo(s), 1));
            Answered(w, t, r) && t.threads[1].dpc.DecideSaving?
  {
  }

  lemma Signals(w: Wiring, s: Sys, r: Run)
    requires Answered(w, s, r) && s.threads[1].dpc.DecideSaving?
    ensures var t := Next(w, s, Advance(1, YES));
            Answered(w, t, r) && t.threads[1].dpc.DecideSignalling?
  {
  }

  lemma Wakes(w: Wiring, s: Sys, r: Run)
    requires Answered(w, s, r) && s.threads[1].dpc.DecideSignalling?
    ensures var t := Next(w, Next(w, s, Advance(1, YES)), Advance(0, YES));
            && BeforeGate(w, t, r)
            && forall k :: k in w.steps[r.stepIndex].requires_ ==> k in t.eng.current.value.decisions
  {
    var s1 := Next(w, s, Advance(1, YES));
    assert s1.threads == map[0 := Executing(2, Park(r.stepIndex, 2))] && s1.eng.full == {2};
    assert {2} - {2} == {};
  }

  /** From before the gate the step begins, after a Decide if keys are missing. */
  lemma GetsThrough(w: Wiring, s: Sys, evs: seq<Event>, r: Run) returns (all: seq<Event>)
    requires BeforeGate(w, After(w, s, evs), r)
    ensures var t := After(w, s, all); t.threads == map[0 := Executing(2, Begin(r.stepIndex))] && Undisturbed(t, r, 2)
  {
    hide Next, BeforeGate, AtPark, Answered;
    var s1 := After(w, s, evs);
    assert 0 <= r.stepIndex < |w.steps| && s1.eng.current.Some? by { assert BeforeGate(w, s1, r); InGate(w, s1, r); }
    if Missing(w.steps[r.stepIndex].requires_, s1.eng.current.value.decisions) == [] {
      MissingExact(w.steps[r.stepIndex].requires_, s1.eng.current.value.decisions);
      GateOpens(w, s1, r);
      all := evs + [Advance(0, YES)];
      OneMore(w, s, evs, Advance(0, YES));
    } else {
      all := ParksAndWakes(w, s, evs, r);
    }
  }

  lemma InGate(w: Wiring, s: Sys, r: Run)
    requires BeforeGate(w, s, r)
    ensures 0 <= r.stepIndex < |w.steps| && s.eng.current.Some?
  {
  }

  lemma Parked(w: Wiring, s: Sys, r: Run)
    requires AtPark(w, s, r)
    ensures s.eng.current.Some?
  {
  }

  lemma ParksAndWakes(w: Wiring, s: Sys, evs: seq<Event>, r: Run) returns (all: seq<Event>)
    requires BeforeGate(w, After(w, s, evs), r)
    requires 0 <= r.stepIndex < |w.steps| && After(w, s, evs).eng.current.Some?
    requires Missing(w.steps[r.stepIndex].requires_, After(w, s, evs).eng.current.value.decisions) != []
    ensures var t := After(w, s, all); t.threads == map[0 := Executing(2, Begin(r.stepIndex))] && Undisturbed(t, r, 2)
  {
    hide Next, BeforeGate, AtPark, Answered;
    var e1 := evs + [Advance(0, YES)];
    var e2 := e1 + [Advance(0, YES)];
    OneMore(w, s, evs, Advance(0, YES));
    OneMore(w, s, e1, Advance(0, YES));
    GateParks(w, After(w, s, evs), r);
    var parked := After(w, s, e2);
    Parked(w, parked, r);
    var decide := CallDecide(1, r.id, AnswersTo(parked), 1);
    var e3 := e2 + [decide];
    OneMore(w, s, e2, decide);
    Decides(w, parked, r);
    var e4 := e3 + [Advance(1, YES)];
    OneMore(w, s, e3, Advance(1, YES));
    Signals(w, After(w, s, e3), r);
    var e5 := e4 + [Advance(1, YES)];
    var e6 := e5 + [Advance(0, YES)];
    OneMore(w, s, e4, Advance(1, YES));
    OneMore(w, s, e5, Advance(0, YES));
    Wakes(w, After(w, s, e4), r);
    GateOpens(w, After(w, s, e6), r);
    all := e6 + [Advance(0, YES)];
    OneMore(w, s, e6, Advance(0, YES));
  }

  /** The schedule up to the gate. */
  lemma ReachesGate(w: Wiring, b: int, r: Run, workloads: set<string>) returns (evs: seq<Event>)
    requires KeepsLostBundle(w, b, r) && 0 <= b
    ensures BeforeGate(w, After(w, Boot(Some(r), workloads), evs), r)
  {
    hide Next, BeforeGate;
    var s := Boot(Some(r), workloads);
    var reset := CallReset(0, r.id, true, true, 1);
    var e1 := [] + [reset];
    OneMore(w, s, [], reset);
    assert After(w, s, []) == s;
    ResetAccepted(w, s, r);
    var s1 := After(w, s, e1);
    var e2 := e1 + [Advance(0, NO)];
    var e3 := e2 + [Advance(0, NO)];
    OneMore(w, s, e1, Advance(0, NO));
    OneMore(w, s, e2, Advance(0, NO));
    ResetUndone(w, s1, r, s1.eng.current.value);
    var e4 := e3 + [Advance(0, NO)];
    OneMore(w, s, e3, Advance(0, NO));
    ResetClosed(w, After(w, s, e3), r);
    var e5 := e4 + [CallRetry(0, r.id, 1)];
    var e6 := e5 + [Advance(0, YES)];
    OneMore(w, s, e4, CallRetry(0, r.id, 1));
    OneMore(w, s, e5, Advance(0, YES));
    Retried(w, After(w, s, e4), r);
    evs := e6 + [Advance(0, YES)];
    OneMore(w, s, e6, Advance(0, YES));
    ToGate(w, After(w, s, e6), r);
  }

  /**
   * Such a record, stopped or still Active part-way through the pipeline, reset without a checkpoint
   * and retried goes back to the step after its lost bundle, past its gate if it has one.
   */
  lemma LostBundleApplied(w: Wiring, b: int, r: Run, workloads: set<string>) returns (evs: seq<Event>)
    requires KeepsLostBundle(w, b, r) && 0 <= b
    ensures var t := After(w, Boot(Some(r), workloads), evs); PastBundle(w, b, t, 0) && !OwnBundle(t, 0)
  {
    var s := Boot(Some(r), workloads);
    var toGate := ReachesGate(w, b, r, workloads);
    evs := GetsThrough(w, s, toGate, r);
  }
}
