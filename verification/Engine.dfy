/**
 * The engine object. Every method is one hold of the engine mutex, in place; its contract is the
 * function of EngineSpec the machine interleaves. Between two holds the caller does its Store or
 * cluster call with the mutex released.
 */
module Engines {
  import opened Wrappers
  import opened Runs
  import opened EngineSpec
  import opened Recovery
  import opened Ordering

  /** How a hold went, from its caller's side. */
  datatype Outcome<+T> = Did(value: T) | No(code: Code) | Gone

  /** The hold h, taken from before, left the engine at after and answered r. */
  ghost predicate Follows<T>(h: Hold<T>, before: Eng, after: Eng, r: Outcome<T>) {
    match h
    case Went(e, v) => after == e && r == Did(v)
    case Refused(code) => after == before && r == No(code)
    case Superseded => after == before && r == Gone
    case Crash => false
  }

  lemma {:induction false} MissingAppend(a: seq<string>, k: string, decisions: map<string, string>)
    ensures Missing(a + [k], decisions) == Missing(a, decisions) + (if k in decisions then [] else [k])
  {
    if a == [] {
      assert a + [k] == [k];
    } else {
      assert (a + [k])[1..] == a[1..] + [k];
      MissingAppend(a[1..], k, decisions);
    }
  }

  /** Writing every entry of one map over another, in whatever order they come out. */
  method Overlay<V>(under: map<string, V>, over: map<string, V>) returns (out: map<string, V>)
    ensures out == under + over
  {
    out := under;
    var keys := over.Keys;
    while keys != {}
      invariant keys <= over.Keys
      invariant out == under + (map k | k in over && k !in keys :: over[k])
      decreases |keys|
    {
      var k :| k in keys;
      out := out[k := over[k]];
      keys := keys - {k};
    }
  }

  /** Whether the answers are for exactly the requested keys: none foreign, none missing. */
  method AnswersExactly(requested: seq<string>, answers: map<string, string>) returns (ok: bool)
    ensures ok <==> (forall k :: k in answers <==> k in requested)
  {
    var keys := answers.Keys;
    while keys != {}
      invariant keys <= answers.Keys
      invariant forall k :: k in answers && k !in keys ==> k in requested
      decreases |keys|
    {
      var k :| k in keys;
      if k !in requested { return false; }
      keys := keys - {k};
    }
    for i := 0 to |requested|
      invariant forall j :: 0 <= j < i ==> requested[j] in answers
    {
      if requested[i] !in answers { return false; }
    }
    return true;
  }

  class Engine {
    const w: Wiring
    var current: Option<Run>
    var epoch: nat
    var resume: nat
    var full: set<nat>
    var handle: Option<nat>
    var draining: bool
    var recoveredPending: bool
    var activeAction: string
    var actionIndex: int
    var actionTotal: int
    var actionGeneration: nat
    /** Set when the store was swapped for a memory one because its record could not be trusted. */
    var storeUnreadable: bool

    /** The engine's state as a value. */
    function Abs(): Eng
      reads this
    {
      Eng(current, epoch, resume, full, handle, draining, recoveredPending,
          Cursor(activeAction, actionIndex, actionTotal, actionGeneration))
    }

    constructor (wiring: Wiring)
      ensures Abs() == NEW_ENGINE && w == wiring && !storeUnreadable
    {
      w := wiring;
      current, epoch, resume, full, handle := None, 0, 0, {}, None;
      draining, recoveredPending := false, false;
      activeAction, actionIndex, actionTotal, actionGeneration := "", 0, 0, 0;
      storeUnreadable := false;
    }

    // ---- Start ----

    method Start(id: string, now: nat) returns (r: Outcome<Option<Run>>)
      modifies this
      ensures Follows(StartHold(old(Abs()), w, id, now), old(Abs()), Abs(), r)
    {
      if draining { return No(Code.Draining); }
      if recoveredPending { return No(Conflict); }
      if current.Some? && IsLive(current.value.state) { return No(Conflict); }
      if current.Some? && current.value.state == Active { return No(Conflict); }
      if current.Some? && HasUnconfirmedCleanup(current.value) { return No(Conflict); }
      if current.Some? && HasIncompleteTeardown(current.value) { return No(Conflict); }
      var previous := current;
      var run := Run(id, Running, NoPhase, map[], map[], [], [], NO_WORKLOAD, 0, "", false, w.clusterUID, w.toolchain,
                     now, now, [], NO_OWNERSHIP, NO_RESIDUE, NO_VALIDATION, NO_AGENT_NAMESPACE);
      if |w.steps| > 0 {
        run := run.(phase := w.steps[0].phase);
      }
      current := Some(run);
      epoch := epoch + 1;
      resume := epoch;
      handle := Some(epoch);
      return Did(previous);
    }

    method UndoStart(launched: nat, id: string, previous: Option<Run>)
      modifies this
      ensures Abs() == StartUndo(old(Abs()), launched, id, previous)
    {
      if current.Some? && current.value.id == id && epoch == launched {
        current := previous;
      }
    }

    // ---- Retry ----

    method Retry(runId: string, now: nat) returns (r: Outcome<(string, bool)>)
      modifies this
      ensures Follows(RetryHold(old(Abs()), runId, now), old(Abs()), Abs(), r)
    {
      if draining { return No(Code.Draining); }
      if current.None? || current.value.id != runId { return No(NotFound); }
      if current.value.state != Failed { return No(Conflict); }
      if HasIncompleteTeardown(current.value) { return No(Conflict); }
      r := Did((current.value.err, recoveredPending));
      recoveredPending := false;
      current := Some(current.value.(state := Running, err := "", updatedAt := now));
      epoch := epoch + 1;
      resume := epoch;
      handle := Some(epoch);
    }

    method UndoRetry(launched: nat, runId: string, prev: (string, bool), now: nat)
      modifies this
      ensures Abs() == RetryUndo(old(Abs()), launched, runId, prev, now)
    {
      if current.Some? && current.value.id == runId && epoch == launched {
        current := Some(current.value.(state := Failed, err := prev.0, updatedAt := now));
        recoveredPending := prev.1;
      }
    }

    // ---- Reset ----

    method Reset(runId: string, proverReady: bool, hasTeardown: bool, now: nat) returns (r: Outcome<()>)
      modifies this
      ensures Follows(ResetHold(old(Abs()), w, runId, proverReady, hasTeardown, now), old(Abs()), Abs(), r)
    {
      if draining { return No(Code.Draining); }
      if current.None? || current.value.id != runId { return No(NotFound); }
      if w.clusterUID != "" && current.value.clusterUID != "" && current.value.clusterUID != w.clusterUID {
        return No(ClusterMismatch);
      }
      if IsLive(current.value.state) { return No(Conflict); }
      if |current.value.components| == 0 { return No(Conflict); }
      if !proverReady { return No(Unavailable); }
      if !hasTeardown { return No(Unavailable); }
      current := Some(current.value.(state := Resetting, err := "", residue := NO_RESIDUE, updatedAt := now));
      epoch := epoch + 1;
      handle := Some(epoch);
      return Did(());
    }

    method UndoReset(launched: nat, runId: string, now: nat)
      modifies this
      ensures Abs() == ResetUndo(old(Abs()), launched, runId, now)
    {
      if current.Some? && current.value.id == runId && epoch == launched {
        current := Some(current.value.(state := Failed, updatedAt := now));
      }
    }

    /** A copy of the run for the epoch that still owns it. */
    method Snapshot(owner: nat, runId: string) returns (r: Option<Run>)
      ensures r == SnapshotRun(Abs(), owner, runId)
    {
      if epoch != owner || current.None? || current.value.id != runId { return None; }
      return current;
    }

    method RecordTeardown(owner: nat, runId: string, residue: Residue, now: nat)
      modifies this
      ensures Abs() == RecordResidue(old(Abs()), owner, runId, residue, now)
    {
      if epoch == owner && current.Some? && current.value.id == runId {
        current := Some(current.value.(residue := residue, updatedAt := now));
      }
    }

    method ReleaseGate(owner: nat)
      modifies this
      ensures Abs() == ResetRelease(old(Abs()), owner)
    {
      if epoch == owner {
        recoveredPending := false;
      }
    }

    // ---- Decide ----

    method Decide(runId: string, decisions: map<string, string>, now: nat) returns (r: Outcome<Run>)
      modifies this
      ensures Follows(DecideHold(old(Abs()), runId, decisions, now), old(Abs()), Abs(), r)
    {
      if current.None? || current.value.id != runId { return No(NotFound); }
      if current.value.state != AwaitingDecision { return No(Conflict); }
      var requested := current.value.pending;
      var asked := AnswersExactly(requested, decisions);
      if !asked { return No(InvalidRequest); }
      var prev := current.value;
      var answered := Overlay(prev.decisions, decisions);
      current := Some(prev.(decisions := answered, pending := [], state := Running, updatedAt := now));
      return Did(prev);
    }

    method UndoDecide(decided: nat, runId: string, prev: Run)
      modifies this
      ensures Abs() == DecideUndo(old(Abs()), decided, runId, prev)
    {
      if current.Some? && current.value.id == runId && epoch == decided && IsLive(current.value.state) {
        current := Some(current.value.(decisions := prev.decisions, pending := prev.pending,
                                       state := prev.state, updatedAt := prev.updatedAt));
      }
    }

    /** The buffer holds one wake-up: a second send falls through the default arm. */
    method Signal(decided: nat, runId: string)
      modifies this
      ensures Abs() == DecideSignal(old(Abs()), decided, runId)
    {
      if current.Some? && current.value.id == runId && epoch == decided {
        if resume !in full {
          full := full + {resume};
        }
      }
    }

    // ---- Discard and Stop ----

    method Discard(runId: string) returns (r: Outcome<(Run, bool)>)
      modifies this
      ensures Follows(DiscardHold(old(Abs()), runId), old(Abs()), Abs(), r)
    {
      if draining { return No(Code.Draining); }
      if current.None? || current.value.id != runId { return No(NotFound); }
      if IsLive(current.value.state) { return No(Conflict); }
      if current.value.state == Active { return No(Conflict); }
      if HasUnconfirmedCleanup(current.value) { return No(Conflict); }
      if HasIncompleteTeardown(current.value) { return No(Conflict); }
      r := Did((current.value, recoveredPending));
      current := None;
      recoveredPending := false;
    }

    method UndoDiscard(discarded: nat, prev: (Run, bool))
      modifies this
      ensures Abs() == DiscardUndo(old(Abs()), discarded, prev)
    {
      if current.None? && epoch == discarded {
        current := Some(prev.0);
        recoveredPending := prev.1;
      }
    }

    method Stop(runId: string, proverReady: bool) returns (r: Outcome<nat>)
      ensures r == (match StopRefusal(Abs(), runId, proverReady) case None => Did(epoch) case Some(code) => No(code))
    {
      if draining { return No(Code.Draining); }
      if current.None? || current.value.id != runId { return No(NotFound); }
      if !Stoppable(current.value) { return No(Conflict); }
      if !proverReady { return No(Unavailable); }
      return Did(epoch);
    }

    method RecordStop(stopped: nat, runId: string)
      modifies this
      ensures Abs() == StopRecord(old(Abs()), stopped, runId)
    {
      if current.Some? && current.value.id == runId && epoch == stopped {
        current := Some(current.value.(workload := Workload(PROVE_NAMESPACE, "Job", WorkloadName(runId)),
                                       cleanupUnconfirmed := false));
      }
    }

    // ---- the execute goroutine ----

    /** The loop head. Its dereference is safe because an epoch is only alive over a run. */
    method NextIndex(owner: nat) returns (r: Outcome<int>)
      requires epoch == owner ==> current.Some?
      ensures Follows(TopHold(Abs(), owner), Abs(), Abs(), r)
    {
      if epoch != owner { return Gone; }
      return Did(current.value.stepIndex);
    }

    method AwaitDecisions(owner: nat, step: StepSpec, now: nat) returns (r: Outcome<Gate>)
      requires epoch == owner ==> current.Some?
      modifies this
      ensures Follows(AwaitHold(old(Abs()), owner, step, now), old(Abs()), Abs(), r)
    {
      if epoch != owner { return Gone; }
      var missing: seq<string> := [];
      for i := 0 to |step.requires_|
        invariant Abs() == old(Abs())
        invariant missing == Missing(step.requires_[..i], current.value.decisions)
      {
        assert step.requires_[..i + 1] == step.requires_[..i] + [step.requires_[i]];
        MissingAppend(step.requires_[..i], step.requires_[i], current.value.decisions);
        if step.requires_[i] !in current.value.decisions {
          missing := missing + [step.requires_[i]];
        }
      }
      assert step.requires_[..|step.requires_|] == step.requires_;
      if |missing| == 0 { return Did(Open); }
      current := Some(current.value.(pending := missing, state := AwaitingDecision, phase := step.phase,
        updatedAt := now));
      return Did(Parked(resume, current.value));
    }

    /** Receiving from a resume channel that holds a wake-up. */
    method Receive(channel: nat)
      requires channel in full
      modifies this
      ensures Abs() == TakeToken(old(Abs()), channel)
    {
      full := full - {channel};
    }

    method BeginStep(owner: nat, step: StepSpec, now: nat) returns (r: Outcome<Run>)
      requires epoch == owner ==> current.Some?
      modifies this
      ensures Follows(BeginHold(old(Abs()), owner, step, now), old(Abs()), Abs(), r)
    {
      if epoch != owner { return Gone; }
      current := Some(current.value.(phase := step.phase, state := Running, updatedAt := now));
      return Did(current.value);
    }

    /** The failure merge: narration and evidence, and the sticky flag only on evidence about it. */
    method MergeStepFailure(owner: nat, scratch: Run, why: Failure) returns (r: Outcome<()>)
      requires epoch == owner ==> current.Some?
      modifies this
      ensures Follows(FailMerge(old(Abs()), owner, scratch, why), old(Abs()), Abs(), r)
    {
      if epoch == owner {
        var run := current.value.(components := scratch.components, ownership := scratch.ownership,
                                  agentNamespace := scratch.agentNamespace);
        if why == Unconfirmed {
          run := run.(cleanupUnconfirmed := true);
        } else if why == Confirmed {
          run := run.(cleanupUnconfirmed := false);
        }
        current := Some(run);
      }
      return Did(());
    }

    method MergeStepSuccess(owner: nat, scratch: Run, i: int, now: nat) returns (r: Outcome<Run>)
      requires epoch == owner ==> current.Some?
      modifies this
      ensures Follows(OkMerge(old(Abs()), owner, scratch, i, now), old(Abs()), Abs(), r)
    {
      if epoch != owner { return Gone; }
      var artifacts := Overlay(current.value.artifacts, scratch.artifacts);
      var decisions := Overlay(current.value.decisions, scratch.decisions);
      current := Some(current.value.(artifacts := artifacts, decisions := decisions, components := scratch.components,
                                     workload := scratch.workload, ownership := scratch.ownership,
                                     agentNamespace := scratch.agentNamespace, validation := scratch.validation,
                                     stepIndex := i + 1, updatedAt := now));
      return Did(current.value);
    }

    /** finish checks for a nil run itself: Stop calls it at an epoch a Discard may have emptied. */
    method Finish(owner: nat, state: State, err: string, now: nat) returns (r: Outcome<Run>)
      modifies this
      ensures Follows(FinishHold(old(Abs()), owner, state, err, now), old(Abs()), Abs(), r)
    {
      if epoch != owner || current.None? { return Gone; }
      current := Some(current.value.(state := state, err := err, updatedAt := now));
      return Did(current.value);
    }

    // ---- attribution ----

    method SetActiveAction(owner: nat, name: string, index: int, total: int)
      modifies this
      ensures Abs() == SetAction(old(Abs()), owner, name, index, total)
    {
      if epoch != owner { return; }
      activeAction, actionIndex, actionTotal := name, index, total;
      actionGeneration := actionGeneration + 1;
    }

    method ClearActiveAction(owner: nat)
      modifies this
      ensures Abs() == ClearAction(old(Abs()), owner)
    {
      SetActiveAction(owner, "", 0, 0);
    }

    // ---- CancelAndWait ----

    /** Refuse every later run, and say which epoch's handles to cancel and wait on. */
    method Drain() returns (waitOn: Option<nat>)
      modifies this
      ensures Abs() == old(Abs()).(draining := true) && waitOn == handle
    {
      draining := true;
      waitOn := handle;
    }

    /** Stop's last hold: the gate a recovered run holds is released, whatever run is now current. */
    method OpenGate()
      modifies this
      ensures Abs() == old(Abs()).(recoveredPending := false)
    {
      recoveredPending := false;
    }

    // ---- startup ----

    /** The record as it is put in place, field by field. */
    method Normalise(bundle: int, loaded: Run) returns (run: Run)
      ensures run == Normalised(bundle, loaded)
    {
      run := loaded.(pending := []);
      if run.state == Resetting {
        run := run.(residue := run.residue.(incomplete := true));
      }
      if IsLive(run.state) || run.state == Idle {
        run := run.(state := Failed, err := RECOVERED_ERR);
      }
      if run.state == Failed && run.stepIndex > bundle {
        run := run.(stepIndex := bundle);
      }
    }

    /**
     * load is what LoadCurrentWithRetry came back with. Only a bad pipeline or another cluster's
     * record is reported; a store failure is a cold start.
     */
    method Recover(load: Load) returns (r: Recovered)
      modifies this
      ensures r == Misconfigured || exists b :: TheBundle(w.steps, b) && r == RecoverSpec(w, Some(b), load)
      ensures r.Installed? ==> Abs() == AfterRecover(old(Abs()), r.run)
      ensures !r.Installed? ==> Abs() == old(Abs())
      ensures storeUnreadable <==> old(storeUnreadable) || r == Unreadable
      ensures r == Misconfigured <==> forall b :: !TheBundle(w.steps, b)
    {
      var bundle := BundleStepIndex(w.steps);
      if bundle.None? { return Misconfigured; }
      assert TheBundle(w.steps, bundle.value);
      if load == Coded(NotFound) { return Cold; }
      if !load.Loaded? || !ValidLoaded(w.steps, load.run) {
        storeUnreadable := true;
        return Unreadable;
      }
      if w.clusterUID != "" && load.run.clusterUID != "" && load.run.clusterUID != w.clusterUID { return Foreign; }
      var run := Normalise(bundle.value, load.run);
      current := Some(run);
      recoveredPending := true;
      r := Installed(run);
      assert r == RecoverSpec(w, bundle, load);
    }

    /** Settles the record against the workloads the cluster lists, in whatever order it lists them. */
    method ReconcileWorkloads(owned: seq<OwnedWorkload>, now: nat)
      modifies this
      ensures Abs() == Reconciled(old(Abs()), w, owned, now)
    {
      var sorted := Sort(ByName, owned);
      var curId, curState := "", UnknownState;
      if current.Some? {
        curId, curState := current.value.id, current.value.state;
      }
      var present := false;
      for i := 0 to |owned|
        invariant present <==> exists j :: 0 <= j < i && MatchesRun(owned[j], curId)
      {
        if MatchesRun(owned[i], curId) { present := true; }
      }
      if curState == Active && !present {
        var finished := Finish(epoch, Done, "", now);
        ClearActiveAction(epoch);
      }
      assert present <==> PresentIn(owned, curId);
      ghost var settled := Settled(old(Abs()), owned, now);
      assert Abs() == settled;
      for i := 0 to |sorted|
        invariant old(current).Some? ==> Abs() == settled && current.Some?
        invariant old(current).None? && curId == "" ==>
                  Abs() == old(Abs()) && FirstAdoptable(sorted) == FirstAdoptable(sorted[i..])
        invariant old(current).None? && curId != "" ==> Abs() == Reconciled(old(Abs()), w, owned, now)
      {
        if !MatchesRun(sorted[i], curId) && curId == "" && Adoptable(sorted[i]) {
          Adopt(sorted[i], now);
          curId := sorted[i].runId;
        }
      }
    }

    /** Puts a found workload in an empty slot. That the slot is empty is checked here, under the lock. */
    method Adopt(o: OwnedWorkload, now: nat)
      modifies this
      ensures Abs() == if old(current).Some? then old(Abs()) else old(Abs()).(current := Some(Adopted(w, o, now)))
    {
      if current.Some? { return; }
      current := Some(Adopted(w, o, now));
    }
  }

  // ---- what one uninterrupted call undoes ----

  /** A Start whose Save fails leaves the run and the gate as they were; only the epoch moved on. */
  lemma StartRollsBack(e: Eng, w: Wiring, id: string, now: nat)
    requires StartHold(e, w, id, now).Went?
    ensures var h := StartHold(e, w, id, now);
            StartUndo(h.eng, h.eng.epoch, id, h.value) == FreshResume(Bump(e))
  {
  }

  /** A Retry whose Save fails restores state, error text and gate; only the timestamp moves. */
  lemma RetryRollsBack(e: Eng, runId: string, now: nat, later: nat)
    requires RetryHold(e, runId, now).Went?
    ensures var h := RetryHold(e, runId, now);
            RetryUndo(h.eng, h.eng.epoch, runId, h.value, later)
            == FreshResume(Bump(WithRun(e, e.current.value.(updatedAt := later))))
  {
  }

  /** A Decide whose Save fails, on a run still live, leaves no trace at all. */
  lemma DecideRollsBack(e: Eng, runId: string, decisions: map<string, string>, now: nat)
    requires DecideHold(e, runId, decisions, now).Went?
    ensures var h := DecideHold(e, runId, decisions, now);
            DecideUndo(h.eng, e.epoch, runId, h.value) == e
  {
  }

  /** A Discard whose Delete fails leaves no trace either. */
  lemma DiscardRollsBack(e: Eng, runId: string)
    requires DiscardHold(e, runId).Went?
    ensures var h := DiscardHold(e, runId);
            DiscardUndo(h.eng, e.epoch, h.value) == e
  {
  }

  // ---- what one hold means to the next ----

  /**
   * A hold of a superseded epoch, or about a run no longer current, leaves the engine as it is: no
   * late rollback, record or wake-up reaches a run it is not about.
   */
  lemma StaleHoldsAreNothing(e: Eng, epoch: nat, id: string, previous: Option<Run>, prev: (string, bool), was: Run,
                             residue: Residue, now: nat)
    requires epoch != e.epoch || !Holds(e, id)
    ensures StartUndo(e, epoch, id, previous) == RetryUndo(e, epoch, id, prev, now) == ResetUndo(e, epoch, id, now) == e
    ensures DecideUndo(e, epoch, id, was) == DecideSignal(e, epoch, id) == StopRecord(e, epoch, id) == e
    ensures RecordResidue(e, epoch, id, residue, now) == e && SnapshotRun(e, epoch, id) == None
  {
  }

  /** Nor does a goroutine of a superseded epoch get past any of its holds, merge what it did, or open the gate. */
  lemma StaleGoroutineGetsNothing(e: Eng, epoch: nat, step: StepSpec, scratch: Run, i: int, why: Failure, state: State,
                                  err: string, now: nat)
    requires epoch != e.epoch
    ensures TopHold(e, epoch).Superseded? && AwaitHold(e, epoch, step, now).Superseded?
    ensures BeginHold(e, epoch, step, now).Superseded? && OkMerge(e, epoch, scratch, i, now).Superseded?
    ensures FailMerge(e, epoch, scratch, why) == Went(e, ()) && FinishHold(e, epoch, state, err, now).Superseded?
    ensures ResetRelease(e, epoch) == e && SetAction(e, epoch, err, i, i) == e && ClearAction(e, epoch) == e
  {
  }

  /** A Discard is only ever undone into the slot it left empty. */
  lemma DiscardUndoNeedsTheSlot(e: Eng, epoch: nat, prev: (Run, bool))
    ensures DiscardUndo(e, epoch, prev) != e ==> e.current.None? && epoch == e.epoch
    ensures DiscardUndo(e, epoch, prev).current.Some? ==>
            DiscardUndo(e, epoch, prev).current == e.current || e.current.None?
  {
  }

  /**
   * How a Reset ends for the operator. Incomplete, its residue refuses Start, Retry and Discard and
   * leaves another Reset open; clean, the console is free.
   */
  lemma ResetEnds(e: Eng, w: Wiring, epoch: nat, runId: string, residue: Residue, msg: string, now: nat)
    requires Alive(e, epoch) && Holds(e, runId) && !e.draining && e.current.value.components != [] &&
             SameCluster(w, e.current.value)
    ensures var done := FinishHold(RecordResidue(e, epoch, runId, residue, now), epoch,
                                   if residue.incomplete then Failed else Done, msg, now);
            && done.Went?
            && var e' := if residue.incomplete then done.eng else ResetRelease(done.eng, epoch);
               && ResetRefusal(e', w, runId, true, true).None?
               && (StartRefusal(e').Some? <==> residue.incomplete) &&
                 (DiscardRefusal(e', runId).Some? <==> residue.incomplete)
               && RetryRefusal(e', runId).Some?
  {
  }

  /**
   * How an accepted Stop ends: the run is Done with its workload named, so that Stop may be repeated,
   * and Start and Discard are open unless a teardown is incomplete.
   */
  lemma StopEnds(e: Eng, runId: string, now: nat)
    requires StopRefusal(e, runId, true).None?
    ensures var done := FinishHold(StopRecord(e, e.epoch, runId), e.epoch, Done, "", now);
            && done.Went?
            && var e' := done.eng.(recoveredPending := false);
               && StopRefusal(e', runId, true).None? && e'.current.value.workload == WorkloadOf(runId)
               && (StartRefusal(e').Some? <==> e.current.value.residue.incomplete)
               && (DiscardRefusal(e', runId).Some? <==> e.current.value.residue.incomplete)
  {
  }

  /** What the state a run finishes in means to Discard. */
  lemma FinishGuards(e: Eng, epoch: nat, state: State, err: string, now: nat)
    requires !e.draining && FinishHold(e, epoch, state, err, now).Went? && !IsLive(state)
    ensures var e', r := FinishHold(e, epoch, state, err, now).eng, e.current.value;
            && (DiscardRefusal(e', r.id).Some? <==>
                  state == Active || (state == Failed && r.cleanupUnconfirmed) || r.residue.incomplete)
            && (RetryRefusal(e', r.id).Some? <==> state != Failed || r.residue.incomplete)
  {
  }

  /** A step that leaves its copy as it got it: success only moves the run on, failure changes nothing. */
  lemma UntouchedStepMergesBack(e: Eng, epoch: nat, step: StepSpec, now: nat, later: nat)
    requires Alive(e, epoch) && e.current.Some?
    ensures var begun := BeginHold(e, epoch, step, now);
            && begun.Went? && FailMerge(begun.eng, epoch, begun.value, Plain) == Went(begun.eng, ())
            && var i, r := TopHold(e, epoch).value, e.current.value;
               OkMerge(begun.eng, epoch, begun.value, i, later) ==
               var r' := r.(phase := step.phase, state := Running, stepIndex := r.stepIndex + 1, updatedAt := later);
               Went(WithRun(e, r'), r')
  {
    var r := e.current.value;
    assert r.artifacts + r.artifacts == r.artifacts && r.decisions + r.decisions == r.decisions;
  }

  /** Signalling twice is signalling once, and receiving the wake-up takes it back. */
  lemma SignalThenReceive(e: Eng, epoch: nat, runId: string)
    requires Alive(e, epoch) && Holds(e, runId) && e.resume !in e.full
    ensures var e' := DecideSignal(e, epoch, runId);
            e'.resume in e'.full && DecideSignal(e', epoch, runId) == e' && TakeToken(e', e.resume) == e
  {
    assert e.full + {e.resume} + {e.resume} == e.full + {e.resume};
    assert e.full + {e.resume} - {e.resume} == e.full;
  }

  /**
   * Clearing the cursor takes back whatever a marker set, leaving only a later generation; a marker of
   * a superseded epoch never shows.
   */
  lemma CursorComesBack(e: Eng, epoch: nat, name: string, index: int, total: int)
    ensures Alive(e, epoch) ==>
              ClearAction(SetAction(e, epoch, name, index, total),
                epoch) == e.(cursor := Cursor("", 0, 0, e.cursor.generation + 2))
    ensures !Alive(e, epoch) ==> SetAction(e, epoch, name, index, total) == ClearAction(e, epoch) == e
  {
  }

  /** Once draining, whatever the run, nothing that could launch or change one is accepted. */
  lemma DrainRefusesAll(e: Eng, w: Wiring, runId: string, ready: bool, has: bool)
    requires e.draining
    ensures StartRefusal(e) == RetryRefusal(e, runId) == ResetRefusal(e, w, runId, ready, has) == Some(Code.Draining)
    ensures DiscardRefusal(e, runId) == StopRefusal(e, runId, ready) == Some(Code.Draining)
  {
  }
}
