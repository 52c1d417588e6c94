/**
 * What a restart does: the record Recover installs, the workload reconciliation adopts, and the
 * proof that no guard is weaker after a crash than before it.
 */
module Recovery {
  import opened Wrappers
  import opened Runs
  import opened EngineSpec
  import opened Ordering

  const RUN_ID_LENGTH := 16
  const MAX_LOAD_ATTEMPTS := 3
  const RECOVERED_ERR := "interrupted by a console restart"

  predicate IsHex(c: char) { '0' <= c <= '9' || 'a' <= c <= 'f' || 'A' <= c <= 'F' }

  predicate ValidRunId(id: string) {
    |id| == RUN_ID_LENGTH && forall i :: 0 <= i < |id| ==> IsHex(id[i])
  }

  /** A record worth installing. */
  predicate ValidLoaded(steps: Pipeline, r: Run) {
    && ValidRunId(r.id)
    && r.state != UnknownState && r.phase != NoPhase && r.phase != UnknownPhase
    && 0 <= r.stepIndex <= |steps|
    && r.startedAt != 0 && r.updatedAt != 0
  }

  /** b is the one Bundle step. */
  predicate TheBundle(steps: Pipeline, b: int) {
    && 0 <= b < |steps| && steps[b].phase == Bundle
    && forall i :: 0 <= i < |steps| && i != b ==> steps[i].phase != Bundle
  }

  /** A load that failed: with a structured code, or with a bare context error. */
  datatype Load = Loaded(run: Run) | Coded(code: Code) | Bare

  datatype Recovered = Misconfigured | Cold | Unreadable | Foreign | Installed(run: Run)

  predicate SameCluster(w: Wiring, r: Run) {
    w.clusterUID == "" || r.clusterUID == "" || r.clusterUID == w.clusterUID
  }

  /** The record as Recover installs it. */
  function Normalised(b: int, r: Run): Run {
    var interrupted := IsLive(r.state) || r.state == Idle;
    var state := if interrupted then Failed else r.state;
    r.(pending := [], state := state,
       err := if interrupted then RECOVERED_ERR else r.err,
       residue := if r.state == Resetting then r.residue.(incomplete := true) else r.residue,
       stepIndex := if state == Failed && r.stepIndex > b then b else r.stepIndex)
  }

  function RecoverSpec(w: Wiring, b: Option<int>, load: Load): Recovered {
    match b
    case None => Misconfigured
    case Some(bundle) =>
      match load
      case Coded(NotFound) => Cold
      case Coded(_) => Unreadable
      case Bare => Unreadable
      case Loaded(r) =>
        if !ValidLoaded(w.steps, r) then Unreadable
        else if !SameCluster(w, r) then Foreign
        else Installed(Normalised(bundle, r))
  }

  /** The engine a recovered record finds itself in. */
  function AfterRecover(e: Eng, r: Run): Eng { e.(current := Some(r), recoveredPending := true) }

  /** What startup makes of the engine: only an installed record changes it. */
  function AfterLoad(e: Eng, rec: Recovered): Eng { if rec.Installed? then AfterRecover(e, rec.run) else e }

  /** What Recover takes: a valid record, of this cluster. */
  predicate Recoverable(w: Wiring, r: Run) { ValidLoaded(w.steps, r) && SameCluster(w, r) }

  /** Only a sound record of this cluster is installed, and only no record at all is a cold start. */
  lemma WhatRecoverFinds(w: Wiring, b: Option<int>, load: Load)
    ensures var found := RecoverSpec(w, b, load);
            if b.None? then found == Misconfigured
            else
              match load
              case Bare => found == Unreadable
              case Coded(code) => found == if code == NotFound then Cold else Unreadable
              case Loaded(r) =>
                var hex := |r.id| == 16 && forall i :: 0 <= i < 16 ==>
                  '0' <= r.id[i] <= '9' || 'a' <= r.id[i] <= 'f' || 'A' <= r.id[i] <= 'F';
                var sound :=
                  && hex && r.state != UnknownState && r.phase != NoPhase && r.phase != UnknownPhase
                  && 0 <= r.stepIndex <= |w.steps| && r.startedAt != 0 && r.updatedAt != 0;
                var mine := w.clusterUID == "" || r.clusterUID == "" || r.clusterUID == w.clusterUID;
                && (found == Unreadable <==> !sound) && (found == Foreign <==> sound && !mine)
                && (found.Installed? <==> sound && mine)
  {
  }

  /** What it installs: an interrupted run has failed, and says by what; every other field is the record's own. */
  lemma InstalledAs(w: Wiring, b: int, r: Run)
    requires RecoverSpec(w, Some(b), Loaded(r)).Installed?
    ensures var r' := RecoverSpec(w, Some(b), Loaded(r)).run;
            var cut := r.state == Running || r.state == AwaitingDecision || r.state == Resetting || r.state == Idle;
            && r' == r.(state := r'.state, err := r'.err, pending := [], residue := r'.residue,
                 stepIndex := r'.stepIndex)
            && r'.state == (if cut then Failed else r.state)
            && r'.err == (if cut then "interrupted by a console restart" else r.err)
            && r'.residue.items == r.residue.items
            && (r'.residue.incomplete <==> r.residue.incomplete || r.state == Resetting)
            && r'.stepIndex == (if (cut || r.state == Failed) && b < r.stepIndex then b else r.stepIndex)
  {
  }

  // ---- a crash never weakens a guard ----

  /** Startup with r on disk. */
  function Restarted(e: Eng, w: Wiring, b: int, r: Run): Eng { AfterLoad(e, RecoverSpec(w, Some(b), Loaded(r))) }

  predicate FreshProcess(e: Eng) { e.current.None? && !e.draining && !e.recoveredPending }

  /**
   * A record is put in place, with nobody driving it and nothing pending, exactly when it is
   * recoverable, and then Start waits for the operator; any other leaves Start open.
   */
  lemma RecoveredIsQuiet(e: Eng, w: Wiring, b: int, r: Run)
    requires FreshProcess(e)
    ensures var e' := Restarted(e, w, b, r);
            && (StartRefusal(e').Some? <==> Recoverable(w, r)) && (e'.current.Some? <==> Recoverable(w, r))
            && (Recoverable(w, r) ==>
                  Holds(e', r.id) && !IsLive(e'.current.value.state) && e'.current.value.pending == [])
  {
  }

  /**
   * Discard is refused exactly on what the record says: CleanupUnconfirmed on a run already Done is
   * the one mark that no longer holds it back.
   */
  lemma CrashKeepsDiscardGuard(e: Eng, w: Wiring, b: int, r: Run)
    requires FreshProcess(e) && Recoverable(w, r)
    ensures DiscardRefusal(Restarted(e, w, b, r), r.id).Some? <==>
              r.state == Active || r.state == Resetting || r.residue.incomplete ||
                (r.cleanupUnconfirmed && r.state != Done)
  {
  }

  lemma CrashKeepsRetryGuard(e: Eng, w: Wiring, b: int, r: Run)
    requires FreshProcess(e) && Recoverable(w, r)
    ensures RetryRefusal(Restarted(e, w, b, r), r.id).Some? <==>
              r.state == Active || r.state == Done || r.state == Resetting || r.residue.incomplete
  {
  }

  /**
   * So whatever refused Discard before the crash, other than being live, refuses it after; and
   * evidence about the cluster is carried over whole.
   */
  lemma GuardsOutliveProcess(before: Eng, e: Eng, w: Wiring, b: int, r: Run)
    requires FreshProcess(e) && Recoverable(w, r)
    requires !before.draining && before.current == Some(r) && !IsLive(r.state) && DiscardRefusal(before, r.id).Some?
    ensures DiscardRefusal(Restarted(e, w, b, r), r.id).Some? && Holds(Restarted(e, w, b, r), r.id)
    ensures var r' := Restarted(e, w, b, r).current.value;
            r'.ownership == r.ownership && r'.components == r.components && r'.workload == r.workload
            && r'.cleanupUnconfirmed == r.cleanupUnconfirmed && (r.residue.incomplete ==> r'.residue == r.residue)
  {
  }

  /** A failed or interrupted run resumes no later than its Bundle step; any other is left where it stood. */
  lemma RewindsToBundle(w: Wiring, b: int, r: Run)
    requires TheBundle(w.steps, b) && ValidLoaded(w.steps, r)
    ensures var r' := Normalised(b, r);
            r'.stepIndex == (if r'.state == Failed && b < r.stepIndex then b else r.stepIndex)
            && 0 <= r'.stepIndex <= |w.steps|
            && (r'.state == Failed ==> r'.stepIndex <= b)
  {
  }

  // ---- reconciliation against the cluster ----

  datatype OwnedWorkload = OwnedWorkload(namespace: string, name: string, runId: string)

  predicate MatchesRun(o: OwnedWorkload, runId: string) {
    runId != "" && (o.runId == runId || o.name == WorkloadName(runId))
  }

  predicate PresentIn(owned: seq<OwnedWorkload>, runId: string) {
    exists i :: 0 <= i < |owned| && MatchesRun(owned[i], runId)
  }

  /** A record made from o would survive the next restart, and Stop would address o itself. */
  predicate Adoptable(o: OwnedWorkload) {
    ValidRunId(o.runId) && WorkloadName(o.runId) == o.name
  }

  predicate ByName(a: OwnedWorkload, b: OwnedWorkload) { Less(a.name, b.name) }

  lemma ByNameOrders()
    ensures StrictOrder(ByName)
  {
    StringOrder();
  }

  function Adopted(w: Wiring, o: OwnedWorkload, now: nat): Run {
    Run(o.runId, Active, Prove, map[], map[], [], [], Workload(o.namespace, "Job", o.name), |w.steps|, "", false,
        "", map[], now, now, [], NO_OWNERSHIP, NO_RESIDUE, NO_VALIDATION, NO_AGENT_NAMESPACE)
  }

  /** The first adoptable workload, in the order given. */
  function FirstAdoptable(owned: seq<OwnedWorkload>): Option<OwnedWorkload> {
    if owned == [] then None
    else if Adoptable(owned[0]) then Some(owned[0])
    else FirstAdoptable(owned[1..])
  }

  /** finish, as reconciliation calls it, and clearing the cursor after it. */
  function Ended(e: Eng, now: nat): Eng {
    match FinishHold(e, e.epoch, Done, "", now)
    case Went(e1, _) => ClearAction(e1, e.epoch)
    case _ => e
  }

  /** An Active run whose workload is gone is ended. */
  function Settled(e: Eng, owned: seq<OwnedWorkload>, now: nat): Eng {
    if e.current.Some? && e.current.value.state == Active &&
      !PresentIn(owned, e.current.value.id) then Ended(e, now) else e
  }

  /** Adopting re-checks that there is no record, whatever its ID. */
  function Reconciled(e: Eng, w: Wiring, owned: seq<OwnedWorkload>, now: nat): Eng {
    match e.current
    case Some(_) => Settled(e, owned, now)
    case None =>
      match FirstAdoptable(Sort(ByName, owned))
      case Some(o) => e.(current := Some(Adopted(w, o, now)))
      case None => e
  }

  lemma {:induction false} FirstAdoptableFirst(owned: seq<OwnedWorkload>)
    ensures FirstAdoptable(owned).None? <==> forall i :: 0 <= i < |owned| ==> !Adoptable(owned[i])
    ensures FirstAdoptable(owned).Some? ==>
      exists i :: 0 <= i < |owned| && owned[i] == FirstAdoptable(owned).value && Adoptable(owned[i]) &&
        forall j :: 0 <= j < i ==> !Adoptable(owned[j])
  {
    if owned != [] && !Adoptable(owned[0]) {
      FirstAdoptableFirst(owned[1..]);
      assert owned == [owned[0]] + owned[1..];
      if FirstAdoptable(owned).Some? {
        var i :| 0 <= i < |owned[1..]| && owned[1..][i] == FirstAdoptable(owned).value && Adoptable(owned[1..][i]) &&
          forall j :: 0 <= j < i ==> !Adoptable(owned[1..][j]);
        assert owned[i + 1] == FirstAdoptable(owned).value;
        forall j | 0 <= j < i + 1 ensures !Adoptable(owned[j]) {
          assert j == 0 || owned[j] == owned[1..][j - 1];
        }
      }
    }
  }

  /**
   * Reconciliation never replaces a record and never opens the recovered gate: the one thing it
   * does to a run is to end an Active one whose workload the cluster no longer has.
   */
  lemma ReconcileKeepsRecord(e: Eng, w: Wiring, owned: seq<OwnedWorkload>, now: nat)
    requires e.current.Some?
    ensures var e', r := Reconciled(e, w, owned, now), e.current.value;
            && e'.recoveredPending == e.recoveredPending && e'.current.Some?
            && e'.current.value == r.(state := e'.current.value.state, err := e'.current.value.err,
              updatedAt := e'.current.value.updatedAt)
            && (if r.state == Active && !PresentIn(owned, r.id) then
                  e'.current.value == r.(state := Done, err := "", updatedAt := now) && e'.cursor.action == ""
                else e' == e)
  {
  }

  /** A workload is a run's if it carries the run's label or the name made of its ID; nothing is no run's. */
  lemma PresentExactly(owned: seq<OwnedWorkload>, id: string)
    ensures PresentIn(owned, id) <==>
              id != "" && exists o :: o in owned && (o.runId == id || o.name == "prove-" + id)
  {
    if o :| o in owned && id != "" && (o.runId == id || o.name == "prove-" + id) {
      var i :| 0 <= i < |owned| && owned[i] == o;
      assert MatchesRun(owned[i], id);
    }
  }

  predicate LeastAdoptable(owned: seq<OwnedWorkload>, o: OwnedWorkload) {
    o in owned && Adoptable(o) && forall p :: p in owned && Adoptable(p) ==> !Less(p.name, o.name)
  }

  /** The first element of a sorted sequence with some property is a least one of those that have it. */
  lemma FirstIsLeast(owned: seq<OwnedWorkload>, sorted: seq<OwnedWorkload>, i: int)
    requires Sorted(ByName, sorted) && (forall o :: o in owned ==> o in sorted)
    requires 0 <= i < |sorted| && forall j :: 0 <= j < i ==> !Adoptable(sorted[j])
    ensures forall p :: p in owned && Adoptable(p) ==> !Less(p.name, sorted[i].name)
  {
    hide Adoptable, Less;
    forall p | p in owned && Adoptable(p) ensures !Less(p.name, sorted[i].name) {
      var j :| 0 <= j < |sorted| && sorted[j] == p;
      LessIrreflexive(sorted[i].name);
      assert i < j ==> !ByName(sorted[j], sorted[i]);
    }
  }

  lemma FirstOfSortedIsLeast(owned: seq<OwnedWorkload>)
    ensures var first := FirstAdoptable(Sort(ByName, owned));
            && (first.Some? ==> LeastAdoptable(owned, first.value))
            && (first.None? ==> forall p :: p in owned ==> !Adoptable(p))
  {
    hide Adoptable, Less, FirstAdoptable, Sort;
    ByNameOrders();
    var sorted := Sort(ByName, owned);
    SortSorts(ByName, owned);
    FirstAdoptableFirst(sorted);
    forall o ensures o in sorted <==> o in owned { SortHas(ByName, owned, o); }
    if FirstAdoptable(sorted).Some? {
      var i :| 0 <= i < |sorted| && sorted[i] == FirstAdoptable(sorted).value && Adoptable(sorted[i]) &&
        forall j :: 0 <= j < i ==> !Adoptable(sorted[j]);
      FirstIsLeast(owned, sorted, i);
    }
  }

  /**
   * With no record, it adopts something exactly when something is adoptable, and then the adoptable
   * workload with the least name, whatever order the cluster listed them in.
   */
  lemma ReconcileAdoptsLeast(e: Eng, w: Wiring, owned: seq<OwnedWorkload>, now: nat)
    requires e.current.None?
    ensures Reconciled(e, w, owned, now).current.Some? <==> exists o :: o in owned && Adoptable(o)
    ensures Reconciled(e, w, owned, now).current.Some? ==>
              exists o :: LeastAdoptable(owned, o) && Reconciled(e, w, owned, now).current == Some(Adopted(w, o, now))
  {
    FirstOfSortedIsLeast(owned);
  }

  /**
   * An adopted run is one the operator can end: Stop is accepted and addresses that workload, Start
   * is refused meanwhile, and the record it leaves is one the next restart installs as it is.
   */
  lemma AdoptedIsStoppable(e: Eng, w: Wiring, b: int, o: OwnedWorkload, now: nat)
    requires Adoptable(o) && now != 0 && !e.draining && TheBundle(w.steps, b)
    ensures var r := Adopted(w, o, now);
            var e' := e.(current := Some(r));
            && StopRefusal(e', o.runId, true).None? && WorkloadName(o.runId) == o.name
            && StartRefusal(e').Some?
            && RecoverSpec(w, Some(b), Loaded(r)) == Installed(r)
            && r.id == o.runId && r.state == Active && r.phase == Prove && r.stepIndex == |w.steps|
            && r.workload == Workload(o.namespace, "Job", o.name) && r.startedAt == r.updatedAt == now
            && r.err == "" && !r.cleanupUnconfirmed && !r.residue.incomplete && r.components == []
  {
  }

  // ---- the loops of recovery ----

  /** The index of the one Bundle step, or nothing if the pipeline has none or several. */
  method BundleStepIndex(steps: Pipeline) returns (found: Option<int>)
    ensures forall b :: found == Some(b) <==> TheBundle(steps, b)
  {
    var first, count := -1, 0;
    for i := 0 to |steps|
      invariant 0 <= count && (count == 0 <==> first < 0)
      invariant count == 0 ==> forall j :: 0 <= j < i ==> steps[j].phase != Bundle
      invariant count >= 1 ==> 0 <= first < i && steps[first].phase == Bundle && forall j :: 0 <= j < first ==>
                steps[j].phase != Bundle
      invariant count == 1 ==> forall j :: first < j < i ==> steps[j].phase != Bundle
      invariant count > 1 ==> exists j :: first < j < i && steps[j].phase == Bundle
    {
      if steps[i].phase == Bundle {
        count := count + 1;
        if first < 0 { first := i; }
      }
    }
    if count == 1 { return Some(first); }
    return None;
  }

  /** A failure worth another attempt: the shape a control-plane blip has. */
  predicate Retryable(l: Load) { l == Coded(Internal) }

  /**
   * Up to three loads. answers are what the store says, attempt by attempt; waits whether the pause
   * after an attempt ran its course rather than being cut short.
   */
  method LoadCurrentWithRetry(answers: seq<Load>, waits: seq<bool>) returns (r: Load, attempts: nat)
    requires |answers| >= MAX_LOAD_ATTEMPTS && |waits| >= MAX_LOAD_ATTEMPTS
    ensures 1 <= attempts <= 3
    ensures forall i :: 0 <= i < attempts - 1 ==> Retryable(answers[i]) && waits[i]
    ensures r == answers[attempts - 1] || (r == Bare && Retryable(answers[attempts - 1]) && !waits[attempts - 1])
    ensures Retryable(r) ==> attempts == 3
    ensures Retryable(answers[0]) && waits[0] && Retryable(answers[1]) && waits[1] ==> attempts == 3
    ensures r == Coded(Internal) ==> forall i :: 0 <= i < 3 ==> answers[i] == Coded(Internal)
  {
    attempts := 0;
    r := Bare;
    while attempts < MAX_LOAD_ATTEMPTS
      invariant 0 <= attempts <= MAX_LOAD_ATTEMPTS
      invariant forall i :: 0 <= i < attempts ==> Retryable(answers[i]) && (i < MAX_LOAD_ATTEMPTS - 1 ==> waits[i])
      invariant attempts > 0 ==> r == answers[attempts - 1]
    {
      r := answers[attempts];
      attempts := attempts + 1;
      if !Retryable(r) { return; }
      if attempts == MAX_LOAD_ATTEMPTS { return; }
      if !waits[attempts - 1] { return Bare, attempts; }
    }
  }
}
