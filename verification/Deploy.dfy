/**
 * Reset undoes Apply, inside the engine. The machine runs beside the cluster its steps work on: an
 * Apply under way takes its snapshot, follows the markers and installs, and what it has come to is
 * what its step hands back to merge; a teardown works on the copy of the run the engine hands it.
 * Over any schedule, every release there before a run was started is still there at every point,
 * and after a clean Reset nothing else is left but what could not be proven the run's own.
 */
module Deployments {
  import opened Wrappers
  import opened Runs
  import opened EngineSpec
  import opened Machine
  import opened Structure
  import opened Ownerships
  import opened Teardowns
  import opened Undo
  import Ordering
  import Safety

  /** What an Apply under way has come to; one that refused to install only has its snapshot. */
  datatype Copy = Copy(e: Evidence, refused: bool)

  /**
   * The machine, the releases in the cluster, the copy of the run an Apply has opened, and, for each
   * run, the releases that were there when it was started.
   */
  datatype Site = Site(s: Sys, cluster: set<ReleaseRef>, copy: Option<Copy>, origin: map<string, set<ReleaseRef>>)

  datatype Act =
    | Turn(ev: Event)
    | Opens(tid: nat, clients: bool, probe: string -> Probe)
    | Marks(tid: nat, m: Marker)
    | Installs(tid: nat, component: string)
    | Uninstalls(tid: nat, a: Answer, world: nat -> Attempt)

  /** Each run's recipe. */
  type Recipes = string -> Recipe

  predicate InApply(w: Wiring, s: Sys, tid: nat) {
    && tid in s.threads && s.threads[tid].Executing? && s.threads[tid].pc.Stepping? && s.threads[tid].pc.call.Whole?
    && 0 <= s.threads[tid].pc.i < |w.steps| && w.steps[s.threads[tid].pc.i].phase == Apply
  }

  predicate Uninstalling(s: Sys, tid: nat) {
    tid in s.threads && s.threads[tid].Tearing? && s.threads[tid].rpc.Uninstall?
  }

  /**
   * What a step hands back: Apply its copy, failing if it refused or never opened; any other step the
   * evidence as it got it.
   */
  predicate HandsBack(w: Wiring, x: Site, tid: nat, a: Answer) {
    tid in x.s.threads && x.s.threads[tid].Executing? && x.s.threads[tid].pc.Stepping? &&
    x.s.threads[tid].pc.call.Whole? ==>
      var got := EvidenceOf(x.s.threads[tid].pc.scratch);
      if InApply(w, x.s, tid) && x.copy.Some? then
        EvidenceOf(a.scratch) == x.copy.value.e && (x.copy.value.refused ==> !a.ok)
      else EvidenceOf(a.scratch) == got && (InApply(w, x.s, tid) ==> !a.ok)
  }

  /** The report of a teardown: its inventory, and the namespaces, none of which it touches. */
  ghost predicate Reports(items: seq<ResidueItem>, outcomes: seq<ReleaseOutcome>) {
    exists rest :: items == Inventory(outcomes) + rest && !AnyFailed(rest)
  }

  function Turned(w: Wiring, x: Site, ev: Event): Site {
    var s' := Next(w, x.s, ev);
    match ev
    case Advance(tid, a) =>
      if Uninstalling(x.s, tid) || !HandsBack(w, x, tid, a) then x
      else x.(s := s', copy := if InApply(w, x.s, tid) && !InApply(w, s', tid) then None else x.copy)
    case CallStart(tid, id, _) =>
      if s' == x.s then x else x.(s := s', origin := x.origin[id := x.cluster])
    case _ => x.(s := s')
  }

  /**
   * An act that is not enabled changes nothing. Nothing but an install and a teardown touches the
   * cluster.
   */
  ghost function Acted(w: Wiring, p: Recipes, x: Site, act: Act): Site {
    match act
    case Turn(ev) => Turned(w, x, ev)
    case Opens(tid, clients, probe) =>
      if !InApply(w, x.s, tid) || x.copy.Some? then x
      else
        var r := x.s.threads[tid].pc.scratch;
        if !(forall ns :: ns in p(r.id).namespaces ==> Honest(probe, ns, x.cluster)) then x
        else
          var (own, refused) := Opening(p(r.id), EvidenceOf(r), clients, probe);
          x.(copy := Some(Copy(Evidence(own, r.components), refused)))
    case Marks(tid, m) =>
      if !InApply(w, x.s, tid) || x.copy.None? || x.copy.value.refused then x
      else
        var home, c := p(x.s.threads[tid].pc.scratch.id).home, x.copy.value;
        if m.name !in home || (m.namespace != "" && m.namespace != home[m.name]) then x
        else x.(copy := Some(c.(e := c.e.(rows := Upserted(c.e.rows, m)))))
    case Installs(tid, c) =>
      if !InApply(w, x.s, tid) || x.copy.None? || x.copy.value.refused then x
      else
        var home := p(x.s.threads[tid].pc.scratch.id).home;
        if c !in home || !HasRow(x.copy.value.e.rows, c, home[c]) then x
        else x.(cluster := x.cluster + {ReleaseRef(c, home[c])})
    case Uninstalls(tid, a, world) =>
      if !Uninstalling(x.s, tid) then x
      else
        var t := TornDown(EvidenceOf(x.s.threads[tid].rpc.run), world, x.cluster);
        if !Reports(a.items, t.outcomes) || (t.stopped && x.s.threads[tid].epoch !in x.s.canceled) then x
        else x.(s := Next(w, x.s, Advance(tid, a)), cluster := t.cluster)
  }

  ghost function AfterActs(w: Wiring, p: Recipes, x: Site, acts: seq<Act>): Site {
    if acts == [] then x else Acted(w, p, AfterActs(w, p, x, acts[..|acts| - 1]), acts[|acts| - 1])
  }

  // ---- the invariant ----

  /** A run at rest: its own evidence backs the cluster. */
  predicate Rests(p: Recipes, x: Site, r: Run) {
    r.id in x.origin && Backed(p(r.id), x.origin[r.id], EvidenceOf(r), x.cluster)
  }

  predicate SameEvidence(a: Option<Run>, b: Option<Run>) {
    && a.Some? == b.Some?
    && (a.Some? ==> b.value.id == a.value.id && EvidenceOf(b.value) == EvidenceOf(a.value))
  }

  /** The teardown is past its commands, and found nothing to complain of. */
  predicate CameOutClean(rpc: ResetPc) {
    match rpc
    case Record(residue, reached) => reached && !residue.incomplete
    case Review(incomplete) => !incomplete
    case ResetFinish(incomplete) => !incomplete
    case _ => false
  }

  /** Nothing is left beyond the original cluster but what the run's evidence could not prove its own. */
  predicate LeftClean(x: Site, r: Run) {
    r.id in x.origin && forall c :: c in x.cluster && c !in x.origin[r.id] ==> Unproven(r.ownership, c)
  }

  predicate HowSited(p: Recipes, x: Site, how: Launch) {
    how.ByStart? && how.previous.Some? ==> Rests(p, x, how.previous.value)
  }

  predicate ThreadSited(p: Recipes, x: Site, t: Thread) {
    match t
    case Launching(_, how, _) => HowSited(p, x, how)
    case Undoing(_, how, _) => HowSited(p, x, how)
    case Executing(_, pc) => pc.BeginSave? || pc.Stepping? ==> SameEvidence(x.s.eng.current, Some(pc.scratch))
    case Tearing(_, _, rpc) =>
      && (rpc.Ensure? ==> SameEvidence(x.s.eng.current, Some(rpc.run)))
      && (rpc.Uninstall? ==> SameEvidence(x.s.eng.current, Some(rpc.run)))
      && (CameOutClean(rpc) ==> x.s.eng.current.Some? && LeftClean(x, x.s.eng.current.value))
    case Discarding(epoch, gone, _) => epoch == x.s.eng.epoch ==> Rests(p, x, gone.0)
    case _ => true
  }

  /** The step about to be merged, if one is. */
  function Merging(s: Sys): Option<Run> {
    if HasOwner(s) && OwnerOf(s).Executing? && OwnerOf(s).pc.MergeFail? then Some(OwnerOf(s).pc.scratch)
    else if HasOwner(s) && OwnerOf(s).Executing? && OwnerOf(s).pc.MergeOk? then Some(OwnerOf(s).pc.scratch)
    else None
  }

  /** The evidence in force: the open copy's, else that of a step about to be merged, else the run's. */
  function InForce(x: Site): Evidence
    requires x.s.eng.current.Some?
  {
    if x.copy.Some? then x.copy.value.e
    else if Merging(x.s).Some? then EvidenceOf(Merging(x.s).value)
    else EvidenceOf(x.s.eng.current.value)
  }

  /** An open copy is the owner's, inside its Apply, and its snapshot was taken. */
  predicate CopyOk(w: Wiring, p: Recipes, x: Site) {
    x.copy.Some? ==>
      && HasOwner(x.s) && InApply(w, x.s, x.s.h.ownerOf[x.s.eng.epoch]) && x.s.eng.current.Some?
      && Covered(p(x.s.eng.current.value.id), x.copy.value.e.own)
  }

  predicate Sited(w: Wiring, p: Recipes, x: Site) {
    && CopyOk(w, p, x) && x.origin.Keys <= x.s.h.used
    && (x.s.eng.current.Some? ==>
          var id := x.s.eng.current.value.id;
          id in x.origin && Backed(p(id), x.origin[id], InForce(x), x.cluster))
    && (forall tid :: tid in x.s.threads ==> ThreadSited(p, x, x.s.threads[tid]))
  }

  ghost predicate AllCover(p: Recipes) { forall id :: CoversHomes(p(id)) }

  // ---- what moves leave alone ----

  predicate Merges(t: Thread) { t.Executing? && (t.pc.MergeFail? || t.pc.MergeOk?) }

  predicate Steps(t: Thread) { t.Executing? && t.pc.Stepping? }

  lemma GateKeepsEvidence(w: Wiring, s: Sys, tid: nat, epoch: nat, pc: Pc, a: Answer)
    requires tid in s.threads && (pc.Top? || pc.Await? || pc.AwaitSave? || pc.Park? || pc.Begin? || pc.BeginSave?)
    ensures SameEvidence(s.eng.current, Execute(w, s, tid, epoch, pc, a).eng.current)
  {
    hide Missing;
  }

  lemma EndKeepsEvidence(w: Wiring, s: Sys, tid: nat, epoch: nat, pc: Pc, a: Answer)
    requires tid in s.threads
    requires pc.FailClear? || pc.OkClear? || pc.OkSave? || pc.Finish? || pc.TailClear? || pc.TailSave?
    ensures SameEvidence(s.eng.current, Execute(w, s, tid, epoch, pc, a).eng.current)
  {
  }

  lemma ExecuteKeepsEvidence(w: Wiring, s: Sys, tid: nat, epoch: nat, pc: Pc, a: Answer)
    requires tid in s.threads && !pc.Stepping? && !pc.MergeFail? && !pc.MergeOk?
    ensures SameEvidence(s.eng.current, Execute(w, s, tid, epoch, pc, a).eng.current)
  {
    hide Execute;
    if pc.Top? || pc.Await? || pc.AwaitSave? || pc.Park? || pc.Begin? || pc.BeginSave? {
      GateKeepsEvidence(w, s, tid, epoch, pc, a);
    } else {
      EndKeepsEvidence(w, s, tid, epoch, pc, a);
    }
  }

  lemma TeardownKeepsEvidence(s: Sys, tid: nat, epoch: nat, runId: string, rpc: ResetPc, a: Answer)
    ensures SameEvidence(s.eng.current, Teardown(s, tid, epoch, runId, rpc, a).eng.current)
  {
    hide AnyFailed;
  }

  lemma StopKeepsEvidence(s: Sys, tid: nat, epoch: nat, runId: string, spc: StopPc, a: Answer)
    ensures SameEvidence(s.eng.current, Stop(s, tid, epoch, runId, spc, a).eng.current)
  {
  }

  lemma DecisionKeepsEvidence(s: Sys, tid: nat, epoch: nat, runId: string, prev: Run, dpc: DecidePc, a: Answer)
    ensures SameEvidence(s.eng.current, Decision(s, tid, epoch, runId, prev, dpc, a).eng.current)
  {
  }

  lemma WindowKeepsEvidence(w: Wiring, s: Sys, tid: nat, t: Thread, a: Answer)
    requires t.Launching? || (t.Undoing? && !t.how.ByStart?) || t.Closing?
    ensures SameEvidence(s.eng.current, Window(w, s, tid, t, a).eng.current)
  {
  }

  lemma CallKeepsEvidence(w: Wiring, s: Sys, ev: Event)
    requires ev.CallRetry? || ev.CallReset? || ev.CallDecide? || ev.CallStop? || ev.CallCancel?
    ensures SameEvidence(s.eng.current, Call(w, s, ev).eng.current)
  {
  }

  /** Evidence is all a thread's place asks about. */
  lemma ThreadStays(p: Recipes, x: Site, x': Site, t: Thread)
    requires ThreadSited(p, x, t) && x'.cluster == x.cluster && x'.origin == x.origin
    requires SameEvidence(x.s.eng.current, x'.s.eng.current) && x'.s.eng.epoch == x.s.eng.epoch
    ensures ThreadSited(p, x', t)
  {
    hide Backed;
  }

  /** A thread that neither steps nor merges moves, and the run keeps its evidence. */
  lemma FrameSited(w: Wiring, p: Recipes, x: Site, s': Sys, tid: nat)
    requires Sited(w, p, x) && ThreadsMove(x.s.threads, s'.threads, tid)
    requires s'.eng.epoch == x.s.eng.epoch && s'.h.ownerOf == x.s.h.ownerOf && x.s.h.used <= s'.h.used
    requires SameEvidence(x.s.eng.current, s'.eng.current)
    requires tid in x.s.threads ==> !Steps(x.s.threads[tid]) && !Merges(x.s.threads[tid])
    requires tid in s'.threads ==> !Merges(s'.threads[tid]) && ThreadSited(p, x.(s := s'), s'.threads[tid])
    ensures Sited(w, p, x.(s := s'))
  {
    hide Backed, ThreadSited, Covered;
    var x' := x.(s := s');
    forall u | u in s'.threads ensures ThreadSited(p, x', s'.threads[u]) {
      if u != tid {
        Untouched(x.s, s', tid, u);
        ThreadStays(p, x, x', s'.threads[u]);
      }
    }
    if x.s.eng.epoch in x.s.h.ownerOf && x.s.h.ownerOf[x.s.eng.epoch] != tid {
      Untouched(x.s, s', tid, x.s.h.ownerOf[x.s.eng.epoch]);
    }
  }

  lemma SitedFacts(w: Wiring, p: Recipes, x: Site, tid: nat)
    requires Sited(w, p, x) && tid in x.s.threads
    ensures ThreadSited(p, x, x.s.threads[tid]) && CopyOk(w, p, x)
    ensures x.s.eng.current.Some? ==>
              var id := x.s.eng.current.value.id;
              id in x.origin && Backed(p(id), x.origin[id], InForce(x), x.cluster)
  {
  }

  // ---- the execute goroutine ----

  lemma TopSited(w: Wiring, p: Recipes, x: Site, tid: nat, epoch: nat, pc: Pc, a: Answer)
    requires Sited(w, p, x) && tid in x.s.threads && x.s.threads[tid] == Executing(epoch, pc)
    requires pc.Top?
    ensures Sited(w, p, x.(s := Execute(w, x.s, tid, epoch, pc, a)))
  {
    hide Sited, Backed, Missing;
    SitedFacts(w, p, x, tid);
    ExecuteKeepsEvidence(w, x.s, tid, epoch, pc, a);
    FrameSited(w, p, x, Execute(w, x.s, tid, epoch, pc, a), tid);
  }

  lemma AwaitSited(w: Wiring, p: Recipes, x: Site, tid: nat, epoch: nat, pc: Pc, a: Answer)
    requires Sited(w, p, x) && tid in x.s.threads && x.s.threads[tid] == Executing(epoch, pc)
    requires pc.Await?
    ensures Sited(w, p, x.(s := Execute(w, x.s, tid, epoch, pc, a)))
  {
    hide Sited, Backed, Missing;
    SitedFacts(w, p, x, tid);
    ExecuteKeepsEvidence(w, x.s, tid, epoch, pc, a);
    FrameSited(w, p, x, Execute(w, x.s, tid, epoch, pc, a), tid);
  }

  lemma GateSited(w: Wiring, p: Recipes, x: Site, tid: nat, epoch: nat, pc: Pc, a: Answer)
    requires Sited(w, p, x) && tid in x.s.threads && x.s.threads[tid] == Executing(epoch, pc)
    requires pc.AwaitSave? || pc.Park?
    ensures Sited(w, p, x.(s := Execute(w, x.s, tid, epoch, pc, a)))
  {
    hide Sited, Backed, Missing;
    SitedFacts(w, p, x, tid);
    ExecuteKeepsEvidence(w, x.s, tid, epoch, pc, a);
    FrameSited(w, p, x, Execute(w, x.s, tid, epoch, pc, a), tid);
  }

  lemma BeginSited(w: Wiring, p: Recipes, x: Site, tid: nat, epoch: nat, pc: Pc, a: Answer)
    requires Sited(w, p, x) && tid in x.s.threads && x.s.threads[tid] == Executing(epoch, pc)
    requires pc.Begin? || pc.BeginSave?
    ensures Sited(w, p, x.(s := Execute(w, x.s, tid, epoch, pc, a)))
  {
    hide Sited, Backed, Missing;
    SitedFacts(w, p, x, tid);
    ExecuteKeepsEvidence(w, x.s, tid, epoch, pc, a);
    FrameSited(w, p, x, Execute(w, x.s, tid, epoch, pc, a), tid);
  }

  lemma ClearSited(w: Wiring, p: Recipes, x: Site, tid: nat, epoch: nat, pc: Pc, a: Answer)
    requires Sited(w, p, x) && tid in x.s.threads && x.s.threads[tid] == Executing(epoch, pc)
    requires pc.FailClear? || pc.OkClear?
    ensures Sited(w, p, x.(s := Execute(w, x.s, tid, epoch, pc, a)))
  {
    hide Sited, Backed, Missing;
    SitedFacts(w, p, x, tid);
    ExecuteKeepsEvidence(w, x.s, tid, epoch, pc, a);
    FrameSited(w, p, x, Execute(w, x.s, tid, epoch, pc, a), tid);
  }

  lemma FinishSited(w: Wiring, p: Recipes, x: Site, tid: nat, epoch: nat, pc: Pc, a: Answer)
    requires Sited(w, p, x) && tid in x.s.threads && x.s.threads[tid] == Executing(epoch, pc)
    requires pc.OkSave? || pc.Finish?
    ensures Sited(w, p, x.(s := Execute(w, x.s, tid, epoch, pc, a)))
  {
    hide Sited, Backed, Missing;
    SitedFacts(w, p, x, tid);
    ExecuteKeepsEvidence(w, x.s, tid, epoch, pc, a);
    FrameSited(w, p, x, Execute(w, x.s, tid, epoch, pc, a), tid);
  }

  lemma TailSited(w: Wiring, p: Recipes, x: Site, tid: nat, epoch: nat, pc: Pc, a: Answer)
    requires Sited(w, p, x) && tid in x.s.threads && x.s.threads[tid] == Executing(epoch, pc)
    requires pc.TailClear? || pc.TailSave?
    ensures Sited(w, p, x.(s := Execute(w, x.s, tid, epoch, pc, a)))
  {
    hide Sited, Backed, Missing;
    SitedFacts(w, p, x, tid);
    ExecuteKeepsEvidence(w, x.s, tid, epoch, pc, a);
    FrameSited(w, p, x, Execute(w, x.s, tid, epoch, pc, a), tid);
  }

  // ---- Reset's goroutine, calls past their first hold ----

  lemma LookSited(w: Wiring, p: Recipes, x: Site, tid: nat, epoch: nat, runId: string, rpc: ResetPc, a: Answer)
    requires Sited(w, p, x) && tid in x.s.threads && x.s.threads[tid] == Tearing(epoch, runId, rpc)
    requires rpc.Look? || rpc.Ensure?
    ensures Sited(w, p, x.(s := Teardown(x.s, tid, epoch, runId, rpc, a)))
  {
    hide Sited, Backed, AnyFailed;
    SitedFacts(w, p, x, tid);
    TeardownKeepsEvidence(x.s, tid, epoch, runId, rpc, a);
    FrameSited(w, p, x, Teardown(x.s, tid, epoch, runId, rpc, a), tid);
  }

  lemma RecordSited(w: Wiring, p: Recipes, x: Site, tid: nat, epoch: nat, runId: string, rpc: ResetPc, a: Answer)
    requires Sited(w, p, x) && tid in x.s.threads && x.s.threads[tid] == Tearing(epoch, runId, rpc)
    requires rpc.Record? || rpc.Review?
    ensures Sited(w, p, x.(s := Teardown(x.s, tid, epoch, runId, rpc, a)))
  {
    hide Sited, Backed, AnyFailed;
    SitedFacts(w, p, x, tid);
    TeardownKeepsEvidence(x.s, tid, epoch, runId, rpc, a);
    FrameSited(w, p, x, Teardown(x.s, tid, epoch, runId, rpc, a), tid);
  }

  lemma ResetFinishSited(w: Wiring, p: Recipes, x: Site, tid: nat, epoch: nat, runId: string, rpc: ResetPc, a: Answer)
    requires Sited(w, p, x) && tid in x.s.threads && x.s.threads[tid] == Tearing(epoch, runId, rpc)
    requires rpc.ResetFinish?
    ensures Sited(w, p, x.(s := Teardown(x.s, tid, epoch, runId, rpc, a)))
  {
    hide Sited, Backed, AnyFailed;
    SitedFacts(w, p, x, tid);
    TeardownKeepsEvidence(x.s, tid, epoch, runId, rpc, a);
    FrameSited(w, p, x, Teardown(x.s, tid, epoch, runId, rpc, a), tid);
  }

  lemma TornSaveSited(w: Wiring, p: Recipes, x: Site, tid: nat, epoch: nat, runId: string, rpc: ResetPc, a: Answer)
    requires Sited(w, p, x) && tid in x.s.threads && x.s.threads[tid] == Tearing(epoch, runId, rpc)
    requires rpc.ResetTailClear? || rpc.ResetTailSave?
    ensures Sited(w, p, x.(s := Teardown(x.s, tid, epoch, runId, rpc, a)))
  {
    hide Sited, Backed, AnyFailed;
    SitedFacts(w, p, x, tid);
    TeardownKeepsEvidence(x.s, tid, epoch, runId, rpc, a);
    FrameSited(w, p, x, Teardown(x.s, tid, epoch, runId, rpc, a), tid);
  }

  lemma TornReleaseSited(w: Wiring, p: Recipes, x: Site, tid: nat, epoch: nat, runId: string, rpc: ResetPc, a: Answer)
    requires Sited(w, p, x) && tid in x.s.threads && x.s.threads[tid] == Tearing(epoch, runId, rpc)
    requires rpc.DeleteRecord? || rpc.Release?
    ensures Sited(w, p, x.(s := Teardown(x.s, tid, epoch, runId, rpc, a)))
  {
    hide Sited, Backed, AnyFailed;
    SitedFacts(w, p, x, tid);
    TeardownKeepsEvidence(x.s, tid, epoch, runId, rpc, a);
    FrameSited(w, p, x, Teardown(x.s, tid, epoch, runId, rpc, a), tid);
  }

  lemma StopEnsureSited(w: Wiring, p: Recipes, x: Site, tid: nat, a: Answer)
    requires Sited(w, p, x) && tid in x.s.threads && x.s.threads[tid].Stopping?
    requires var spc := x.s.threads[tid].spc; spc.StopEnsure? || spc.StopRecording?
    ensures var t := x.s.threads[tid]; Sited(w, p, x.(s := Stop(x.s, tid, t.epoch, t.runId, t.spc, a)))
  {
    hide Sited, SameEvidence, Rests;
    var t := x.s.threads[tid];
    StopKeepsEvidence(x.s, tid, t.epoch, t.runId, t.spc, a);
    FrameSited(w, p, x, Stop(x.s, tid, t.epoch, t.runId, t.spc, a), tid);
  }

  lemma StopFinishSited(w: Wiring, p: Recipes, x: Site, tid: nat, a: Answer)
    requires Sited(w, p, x) && tid in x.s.threads && x.s.threads[tid].Stopping?
    requires var spc := x.s.threads[tid].spc; spc.StopFinish? || spc.StopTailClear?
    ensures var t := x.s.threads[tid]; Sited(w, p, x.(s := Stop(x.s, tid, t.epoch, t.runId, t.spc, a)))
  {
    hide Sited, SameEvidence, Rests;
    var t := x.s.threads[tid];
    StopKeepsEvidence(x.s, tid, t.epoch, t.runId, t.spc, a);
    FrameSited(w, p, x, Stop(x.s, tid, t.epoch, t.runId, t.spc, a), tid);
  }

  lemma StopTailSited(w: Wiring, p: Recipes, x: Site, tid: nat, a: Answer)
    requires Sited(w, p, x) && tid in x.s.threads && x.s.threads[tid].Stopping?
    requires var spc := x.s.threads[tid].spc; spc.StopTailSave? || spc.StopRelease?
    ensures var t := x.s.threads[tid]; Sited(w, p, x.(s := Stop(x.s, tid, t.epoch, t.runId, t.spc, a)))
  {
    hide Sited, SameEvidence, Rests;
    var t := x.s.threads[tid];
    StopKeepsEvidence(x.s, tid, t.epoch, t.runId, t.spc, a);
    FrameSited(w, p, x, Stop(x.s, tid, t.epoch, t.runId, t.spc, a), tid);
  }

  lemma DecisionSited(w: Wiring, p: Recipes, x: Site, tid: nat, a: Answer)
    requires Sited(w, p, x) && tid in x.s.threads && x.s.threads[tid].Deciding?
    ensures var t := x.s.threads[tid]; Sited(w, p, x.(s := Decision(x.s, tid, t.epoch, t.runId, t.prev, t.dpc, a)))
  {
    hide Sited, Backed;
    var t := x.s.threads[tid];
    DecisionKeepsEvidence(x.s, tid, t.epoch, t.runId, t.prev, t.dpc, a);
    FrameSited(w, p, x, Decision(x.s, tid, t.epoch, t.runId, t.prev, t.dpc, a), tid);
  }

  lemma CancellingSited(w: Wiring, p: Recipes, x: Site, tid: nat, a: Answer)
    requires Sited(w, p, x) && tid in x.s.threads && x.s.threads[tid].Cancelling?
    ensures Sited(w, p, x.(s := Move(w, x.s, tid, a)))
  {
    hide Sited, Backed;
    FrameSited(w, p, x, Move(w, x.s, tid, a), tid);
  }

  lemma WindowSited(w: Wiring, p: Recipes, x: Site, tid: nat, a: Answer)
    requires Sited(w, p, x) && tid in x.s.threads
    requires var t := x.s.threads[tid]; t.Launching? || (t.Undoing? && !t.how.ByStart?) || t.Closing?
    ensures Sited(w, p, x.(s := Window(w, x.s, tid, x.s.threads[tid], a)))
  {
    hide Sited, Backed;
    SitedFacts(w, p, x, tid);
    WindowKeepsEvidence(w, x.s, tid, x.s.threads[tid], a);
    FrameSited(w, p, x, Window(w, x.s, tid, x.s.threads[tid], a), tid);
  }

  lemma QuietCallSited(w: Wiring, p: Recipes, x: Site, ev: Event)
    requires Sited(w, p, x) && (ev.CallDecide? || ev.CallStop? || ev.CallCancel?)
    ensures Sited(w, p, x.(s := Call(w, x.s, ev)))
  {
    hide Sited, Backed, DecideRefusal, StopRefusal;
    if ev.tid !in x.s.threads {
      CallKeepsEvidence(w, x.s, ev);
      FrameSited(w, p, x, Call(w, x.s, ev), ev.tid);
    }
  }

  // ---- a step's answer, and its merge ----

  /** A driver is alone: no other thread drives, and no Discard of its epoch is in flight. */
  lemma Alone(w: Wiring, s: Sys, tid: nat, u: nat)
    requires Inv(w, s) && tid in s.threads && Driver(s.threads[tid]) && u in s.threads && u != tid
    ensures !Driver(s.threads[u]) && (s.threads[u].Discarding? ==> s.threads[u].epoch != s.eng.epoch)
  {
    OneDriver(w, s, tid);
    assert CallOk(ViewOf(w, s), u, s.threads[u]);
    if Driver(s.threads[u]) { OneDriver(w, s, u); }
  }

  /** So nothing is asked of any other thread. */
  lemma AloneSited(w: Wiring, p: Recipes, s: Sys, x': Site, tid: nat, u: nat)
    requires Inv(w, s) && tid in s.threads && Driver(s.threads[tid]) && u in s.threads && u != tid
    requires x'.s.eng.epoch == s.eng.epoch
    ensures ThreadSited(p, x', s.threads[u])
  {
    hide Inv;
    Alone(w, s, tid, u);
  }

  /** The driver moves and, whatever it did to the run and the cluster, its own place is right. */
  lemma DriverSited(w: Wiring, p: Recipes, x: Site, x': Site, tid: nat)
    requires Inv(w, x.s) && Sited(w, p, x) && tid in x.s.threads && Driver(x.s.threads[tid])
    requires ThreadsMove(x.s.threads, x'.s.threads, tid) && tid in x'.s.threads && ThreadSited(p, x', x'.s.threads[tid])
    requires x'.s.eng.epoch == x.s.eng.epoch && x'.s.h.used == x.s.h.used && x'.origin == x.origin
    requires CopyOk(w, p, x')
    requires x'.s.eng.current.Some? ==>
               var id := x'.s.eng.current.value.id;
               id in x'.origin && Backed(p(id), x'.origin[id], InForce(x'), x'.cluster)
    ensures Sited(w, p, x')
  {
    hide Inv, Backed, ThreadSited, CopyOk, InForce;
    forall u | u in x'.s.threads ensures ThreadSited(p, x', x'.s.threads[u]) {
      if u != tid {
        Untouched(x.s, x'.s, tid, u);
        AloneSited(w, p, x.s, x', tid, u);
      }
    }
  }

  lemma StepShape(w: Wiring, s: Sys, tid: nat, epoch: nat, i: int, scratch: Run, call: StepCall, a: Answer)
    requires tid in s.threads
    ensures var s' := RunStep(w, s, tid, epoch, i, scratch, call, a);
            s' == s || (
              && s'.threads == s.threads[tid := s'.threads[tid]] && s'.eng == s.eng && s'.h == s.h.(lost := s'.h.lost)
              && s'.threads[tid].Executing?
              && var pc := s'.threads[tid].pc;
                 if pc.Stepping? then pc.scratch == scratch && !pc.call.Whole? && !call.Whole?
                 else
                   && (pc.MergeFail? || pc.MergeOk?) && (call.Whole? ==> a.ok == pc.MergeOk?)
                   && EvidenceOf(pc.scratch) == EvidenceOf(if call.Whole? then a.scratch else scratch))
  {
  }

  lemma StepSited(w: Wiring, p: Recipes, x: Site, tid: nat, a: Answer)
    requires Inv(w, x.s) && Sited(w, p, x) && tid in x.s.threads && Steps(x.s.threads[tid])
    requires HandsBack(w, x, tid, a)
    ensures Sited(w, p, Turned(w, x, Advance(tid, a)))
  {
    hide Inv, Sited, Backed, RunStep, Covered, DriverOk;
    var t := x.s.threads[tid];
    var x' := Turned(w, x, Advance(tid, a));
    assert Next(w, x.s, Advance(tid, a)) == RunStep(w, x.s, tid, t.epoch, t.pc.i, t.pc.scratch, t.pc.call, a);
    StepShape(w, x.s, tid, t.epoch, t.pc.i, t.pc.scratch, t.pc.call, a);
    DriverKnows(w, x.s, tid);
    SitedFacts(w, p, x, tid);
    if x'.s == x.s {
      assert x' == x;
    } else {
      DriverSited(w, p, x, x', tid);
    }
  }

  /** A merge takes the step's evidence, and keeps the run's identity. */
  lemma MergeShape(w: Wiring, s: Sys, tid: nat, epoch: nat, pc: Pc, a: Answer)
    requires tid in s.threads && epoch == s.eng.epoch && s.eng.current.Some? && (pc.MergeFail? || pc.MergeOk?)
    ensures var s' := Execute(w, s, tid, epoch, pc, a);
            && s'.threads == s.threads[tid := s'.threads[tid]] && s'.eng == s.eng.(current := s'.eng.current)
            && s'.h.ownerOf == s.h.ownerOf && s'.h.used == s.h.used
            && s'.threads[tid].Executing? && (s'.threads[tid].pc.FailClear? || s'.threads[tid].pc.OkClear?)
            && s'.eng.current.Some? && s'.eng.current.value.id == s.eng.current.value.id
            && EvidenceOf(s'.eng.current.value) == EvidenceOf(pc.scratch)
  {
  }

  lemma MergeSited(w: Wiring, p: Recipes, x: Site, tid: nat, a: Answer)
    requires Inv(w, x.s) && Sited(w, p, x) && tid in x.s.threads && Merges(x.s.threads[tid])
    ensures Sited(w, p, x.(s := Move(w, x.s, tid, a)))
  {
    hide Inv, Sited, Backed, Execute, Covered, DriverOk;
    var t := x.s.threads[tid];
    var x' := x.(s := Move(w, x.s, tid, a));
    DriverKnows(w, x.s, tid);
    SitedFacts(w, p, x, tid);
    MergeShape(w, x.s, tid, t.epoch, t.pc, a);
    assert x.copy.None?;
    DriverSited(w, p, x, x', tid);
  }

  // ---- runs that come and go ----

  lemma UndoShape(w: Wiring, s: Sys, tid: nat, a: Answer)
    requires Inv(w, s) && tid in s.threads && s.threads[tid].Undoing? && s.threads[tid].how.ByStart?
    ensures var t := s.threads[tid];
            Window(w, s, tid, t, a) == Put(s.(eng := s.eng.(current := t.how.previous),
              h := s.h.(slot := if t.how.previous.Some? then t.how.previous.value.id else s.h.slot)), tid,
              Closing(t.epoch))
  {
    hide Inv;
    DriverKnows(w, s, tid);
  }

  lemma UndoStartSited(w: Wiring, p: Recipes, x: Site, tid: nat, a: Answer)
    requires Inv(w, x.s) && Sited(w, p, x) && tid in x.s.threads
    requires x.s.threads[tid].Undoing? && x.s.threads[tid].how.ByStart?
    ensures Sited(w, p, x.(s := Window(w, x.s, tid, x.s.threads[tid], a)))
  {
    hide Inv, Sited, Backed, Window, Covered, DriverOk;
    DriverKnows(w, x.s, tid);
    SitedFacts(w, p, x, tid);
    UndoShape(w, x.s, tid, a);
    assert x.copy.None?;
    DriverSited(w, p, x, x.(s := Window(w, x.s, tid, x.s.threads[tid], a)), tid);
  }

  /** With no run live nobody drives. */
  lemma NobodyDrives(w: Wiring, s: Sys, u: nat)
    requires Inv(w, s) && !CurrentLive(s) && u in s.threads
    ensures !Driver(s.threads[u]) && s.threads[u].epoch <= s.eng.epoch
  {
    if Driver(s.threads[u]) { OneDriver(w, s, u); }
  }

  lemma NobodyMerges(w: Wiring, s: Sys)
    requires Inv(w, s) && !CurrentLive(s)
    ensures Merging(s) == None && forall tid :: !InApply(w, s, tid)
  {
    hide Inv;
    forall tid ensures !InApply(w, s, tid) {
      if tid in s.threads { NobodyDrives(w, s, tid); }
    }
    if HasOwner(s) { NobodyDrives(w, s, s.h.ownerOf[s.eng.epoch]); }
  }

  lemma RestStays(p: Recipes, x: Site, x': Site, t: Thread)
    requires ThreadSited(p, x, t) && !Driver(t) && t.epoch <= x.s.eng.epoch <= x'.s.eng.epoch
    requires x'.cluster == x.cluster && forall id :: id in x.origin ==> id in x'.origin && x'.origin[id] == x.origin[id]
    ensures ThreadSited(p, x', t)
  {
    hide Backed;
  }

  /** While no run is live, a thread moves or arrives; the run may be replaced by one that its evidence backs. */
  lemma RestSited(w: Wiring, p: Recipes, x: Site, x': Site, tid: nat)
    requires Inv(w, x.s) && Sited(w, p, x) && !CurrentLive(x.s) && ThreadsMove(x.s.threads, x'.s.threads, tid)
    requires x'.cluster == x.cluster && x'.copy == x.copy && x'.origin.Keys <= x'.s.h.used
    requires forall id :: id in x.origin ==> id in x'.origin && x'.origin[id] == x.origin[id]
    requires x.s.eng.epoch <= x'.s.eng.epoch && Merging(x'.s) == None
    requires tid in x'.s.threads ==> ThreadSited(p, x', x'.s.threads[tid])
    requires x'.s.eng.current.Some? ==> Rests(p, x', x'.s.eng.current.value)
    ensures Sited(w, p, x')
  {
    hide Inv, Backed, ThreadSited, Covered;
    NobodyMerges(w, x.s);
    assert x'.copy == None;
    forall u | u in x'.s.threads ensures ThreadSited(p, x', x'.s.threads[u]) {
      if u != tid {
        Untouched(x.s, x'.s, tid, u);
        NobodyDrives(w, x.s, u);
        RestStays(p, x, x', x.s.threads[u]);
      }
    }
  }

  /** At rest the run's own evidence is in force. */
  lemma AtRest(w: Wiring, p: Recipes, x: Site)
    requires Inv(w, x.s) && Sited(w, p, x) && !CurrentLive(x.s)
    ensures x.s.eng.current.Some? ==> Rests(p, x, x.s.eng.current.value)
  {
    hide Inv, Backed, Covered;
    NobodyMerges(w, x.s);
  }

  lemma StartSited(w: Wiring, p: Recipes, x: Site, ev: Event)
    requires Inv(w, x.s) && Sited(w, p, x) && ev.CallStart?
    ensures Sited(w, p, Turned(w, x, ev))
  {
    hide Inv, Sited, Covered, HasRow;
    var x' := Turned(w, x, ev);
    if x'.s != x.s {
      AtRest(w, p, x);
      OriginsUsed(w, p, x);
      RestSited(w, p, x, x', ev.tid);
    }
  }

  lemma OriginsUsed(w: Wiring, p: Recipes, x: Site)
    requires Sited(w, p, x)
    ensures x.origin.Keys <= x.s.h.used
  {
  }

  lemma RelaunchSited(w: Wiring, p: Recipes, x: Site, ev: Event)
    requires Inv(w, x.s) && Sited(w, p, x) && (ev.CallRetry? || ev.CallReset?)
    ensures Sited(w, p, x.(s := Call(w, x.s, ev)))
  {
    hide Inv, Sited, Covered, Backed;
    var x' := x.(s := Call(w, x.s, ev));
    if x'.s != x.s {
      AtRest(w, p, x);
      OriginsUsed(w, p, x);
      RestSited(w, p, x, x', ev.tid);
    }
  }

  lemma DiscardSited(w: Wiring, p: Recipes, x: Site, ev: Event)
    requires Inv(w, x.s) && Sited(w, p, x) && ev.CallDiscard?
    ensures Sited(w, p, x.(s := Call(w, x.s, ev)))
  {
    hide Inv, Sited, Covered, Backed;
    var x' := x.(s := Call(w, x.s, ev));
    if x'.s != x.s {
      AtRest(w, p, x);
      OriginsUsed(w, p, x);
      NobodyMerges(w, x.s);
      RestSited(w, p, x, x', ev.tid);
    }
  }

  lemma DiscardingSited(w: Wiring, p: Recipes, x: Site, tid: nat, a: Answer)
    requires Inv(w, x.s) && Sited(w, p, x) && tid in x.s.threads && x.s.threads[tid].Discarding?
    ensures Sited(w, p, x.(s := Move(w, x.s, tid, a)))
  {
    hide Inv, Sited, Covered, Backed, Move;
    var x' := x.(s := Move(w, x.s, tid, a));
    DiscardingShape(w, x.s, tid, a);
    SitedFacts(w, p, x, tid);
    if x'.s.eng == x.s.eng {
      FrameSited(w, p, x, x'.s, tid);
    } else {
      OriginsUsed(w, p, x);
      NobodyMerges(w, x.s);
      RestSited(w, p, x, x', tid);
    }
  }

  // ---- every act ----

  lemma ExecuteSited(w: Wiring, p: Recipes, x: Site, tid: nat, epoch: nat, pc: Pc, a: Answer)
    requires Sited(w, p, x) && tid in x.s.threads && x.s.threads[tid] == Executing(epoch, pc)
    requires !pc.Stepping? && !pc.MergeFail? && !pc.MergeOk?
    ensures Sited(w, p, x.(s := Execute(w, x.s, tid, epoch, pc, a)))
  {
    hide Sited, Execute;
    if pc.Top? { TopSited(w, p, x, tid, epoch, pc, a); }
    else if pc.Await? { AwaitSited(w, p, x, tid, epoch, pc, a); }
    else if pc.AwaitSave? || pc.Park? { GateSited(w, p, x, tid, epoch, pc, a); }
    else if pc.Begin? || pc.BeginSave? { BeginSited(w, p, x, tid, epoch, pc, a); }
    else if pc.FailClear? || pc.OkClear? { ClearSited(w, p, x, tid, epoch, pc, a); }
    else if pc.OkSave? || pc.Finish? { FinishSited(w, p, x, tid, epoch, pc, a); }
    else { TailSited(w, p, x, tid, epoch, pc, a); }
  }

  lemma TeardownSited(w: Wiring, p: Recipes, x: Site, tid: nat, epoch: nat, runId: string, rpc: ResetPc, a: Answer)
    requires Sited(w, p, x) && tid in x.s.threads && x.s.threads[tid] == Tearing(epoch, runId, rpc) && !rpc.Uninstall?
    ensures Sited(w, p, x.(s := Teardown(x.s, tid, epoch, runId, rpc, a)))
  {
    hide Sited, Teardown;
    if rpc.Look? || rpc.Ensure? { LookSited(w, p, x, tid, epoch, runId, rpc, a); }
    else if rpc.Record? || rpc.Review? { RecordSited(w, p, x, tid, epoch, runId, rpc, a); }
    else if rpc.ResetFinish? { ResetFinishSited(w, p, x, tid, epoch, runId, rpc, a); }
    else if rpc.ResetTailClear? || rpc.ResetTailSave? { TornSaveSited(w, p, x, tid, epoch, runId, rpc, a); }
    else { TornReleaseSited(w, p, x, tid, epoch, runId, rpc, a); }
  }

  lemma MoveSited(w: Wiring, p: Recipes, x: Site, tid: nat, a: Answer)
    requires Inv(w, x.s) && Sited(w, p, x) && tid in x.s.threads
    requires !Steps(x.s.threads[tid]) && !Uninstalling(x.s, tid)
    ensures Sited(w, p, x.(s := Move(w, x.s, tid, a)))
  {
    hide Inv, Sited, Execute, Teardown, Stop, Decision, Window;
    match x.s.threads[tid]
    case Executing(epoch, pc) =>
      if pc.MergeFail? || pc.MergeOk? { MergeSited(w, p, x, tid, a); }
      else { ExecuteSited(w, p, x, tid, epoch, pc, a); }
    case Tearing(epoch, runId, rpc) => TeardownSited(w, p, x, tid, epoch, runId, rpc, a);
    case Stopping(_, _, spc) =>
      if spc.StopEnsure? || spc.StopRecording? { StopEnsureSited(w, p, x, tid, a); }
      else if spc.StopFinish? || spc.StopTailClear? { StopFinishSited(w, p, x, tid, a); }
      else { StopTailSited(w, p, x, tid, a); }
    case Deciding(_, _, _, _) => DecisionSited(w, p, x, tid, a);
    case Discarding(_, _, _) => DiscardingSited(w, p, x, tid, a);
    case Cancelling(_) => CancellingSited(w, p, x, tid, a);
    case Launching(_, _, _) => WindowSited(w, p, x, tid, a);
    case Undoing(_, how, _) =>
      if how.ByStart? { UndoStartSited(w, p, x, tid, a); } else { WindowSited(w, p, x, tid, a); }
    case Closing(_) => WindowSited(w, p, x, tid, a);
  }

  lemma MarkedSited(w: Wiring, p: Recipes, x: Site, tid: nat, name: string, index: int, total: int)
    requires Sited(w, p, x)
    ensures Sited(w, p, x.(s := Marked(w, x.s, tid, name, index, total)))
  {
    hide Backed, Covered;
  }

  lemma VanishSited(w: Wiring, p: Recipes, x: Site, runId: string)
    requires Sited(w, p, x)
    ensures Sited(w, p, x.(s := Next(w, x.s, Vanish(runId))))
  {
    hide Backed, Covered;
  }

  lemma TurnSited(w: Wiring, p: Recipes, x: Site, ev: Event)
    requires Inv(w, x.s) && Sited(w, p, x)
    ensures Sited(w, p, Turned(w, x, ev))
  {
    hide Inv, Sited, Move, Call, Marked;
    match ev
    case Advance(tid, a) =>
      if tid in x.s.threads && !Uninstalling(x.s, tid) && HandsBack(w, x, tid, a) {
        if Steps(x.s.threads[tid]) { StepSited(w, p, x, tid, a); } else { MoveSited(w, p, x, tid, a); }
      }
    case CallStart(_, _, _) => StartSited(w, p, x, ev);
    case CallRetry(_, _, _) => RelaunchSited(w, p, x, ev);
    case CallReset(_, _, _, _, _) => RelaunchSited(w, p, x, ev);
    case CallDecide(_, _, _, _) => QuietCallSited(w, p, x, ev);
    case CallDiscard(_, _) => DiscardSited(w, p, x, ev);
    case CallStop(_, _, _) => QuietCallSited(w, p, x, ev);
    case CallCancel(_) => QuietCallSited(w, p, x, ev);
    case Mark(tid, name, index, total) => MarkedSited(w, p, x, tid, name, index, total);
    case Vanish(runId) => VanishSited(w, p, x, runId);
  }

  /** What an Apply under way works with. */
  lemma ApplyFacts(w: Wiring, p: Recipes, x: Site, tid: nat)
    requires Inv(w, x.s) && Sited(w, p, x) && InApply(w, x.s, tid)
    ensures Driver(x.s.threads[tid]) && HasOwner(x.s) && x.s.h.ownerOf[x.s.eng.epoch] == tid && x.s.eng.current.Some?
    ensures x.s.eng.current.value.id == x.s.threads[tid].pc.scratch.id && x.s.threads[tid].pc.scratch.id in x.origin
    ensures var r := x.s.threads[tid].pc.scratch;
            && InForce(x) == (if x.copy.Some? then x.copy.value.e else EvidenceOf(r))
            && Backed(p(r.id), x.origin[r.id], InForce(x), x.cluster)
            && (x.copy.Some? ==> Covered(p(r.id), x.copy.value.e.own))
  {
    hide Inv, Backed, Covered;
    DriverKnows(w, x.s, tid);
    assert ThreadSited(p, x, x.s.threads[tid]);
  }

  lemma CopySited(w: Wiring, p: Recipes, x: Site, x': Site, tid: nat)
    requires Inv(w, x.s) && Sited(w, p, x) && InApply(w, x.s, tid) && x' == x.(copy := x'.copy, cluster := x'.cluster)
    requires var id := x.s.threads[tid].pc.scratch.id;
             && x'.copy.Some? && Covered(p(id), x'.copy.value.e.own)
             && (id in x.origin ==> Backed(p(id), x.origin[id], x'.copy.value.e, x'.cluster))
    ensures Sited(w, p, x')
  {
    hide Inv, Backed, Covered;
    ApplyFacts(w, p, x, tid);
    assert ThreadSited(p, x, x.s.threads[tid]);
    DriverSited(w, p, x, x', tid);
  }

  lemma OpensSited(w: Wiring, p: Recipes, x: Site, tid: nat, clients: bool, probe: string -> Probe)
    requires AllCover(p) && Inv(w, x.s) && Sited(w, p, x)
    ensures Sited(w, p, Acted(w, p, x, Opens(tid, clients, probe)))
  {
    hide Inv, Sited, Backed, Covered, Opening, Honest;
    var x' := Acted(w, p, x, Opens(tid, clients, probe));
    if x'.copy != x.copy {
      var r := x.s.threads[tid].pc.scratch;
      ApplyFacts(w, p, x, tid);
      OpeningKeeps(p(r.id), x.origin[r.id], EvidenceOf(r), x.cluster, clients, probe);
      CopySited(w, p, x, x', tid);
    }
  }

  lemma MarksSited(w: Wiring, p: Recipes, x: Site, tid: nat, m: Marker)
    requires AllCover(p) && Inv(w, x.s) && Sited(w, p, x)
    ensures Sited(w, p, Acted(w, p, x, Marks(tid, m)))
  {
    hide Inv, Sited, Backed, Covered, Upserted;
    var x' := Acted(w, p, x, Marks(tid, m));
    if x'.copy != x.copy {
      var r := x.s.threads[tid].pc.scratch;
      ApplyFacts(w, p, x, tid);
      MarkingKeeps(p(r.id), x.origin[r.id], x.copy.value.e, x.cluster, m);
      CopySited(w, p, x, x', tid);
    }
  }

  lemma InstallsSited(w: Wiring, p: Recipes, x: Site, tid: nat, c: string)
    requires AllCover(p) && Inv(w, x.s) && Sited(w, p, x)
    ensures Sited(w, p, Acted(w, p, x, Installs(tid, c)))
  {
    hide Inv, Sited, Backed, Covered, HasRow;
    var x' := Acted(w, p, x, Installs(tid, c));
    if x'.cluster != x.cluster {
      var r := x.s.threads[tid].pc.scratch;
      ApplyFacts(w, p, x, tid);
      InstallKeeps(p(r.id), x.origin[r.id], x.copy.value.e, x.cluster, c);
      CopySited(w, p, x, x', tid);
    }
  }

  /** A teardown works on the evidence of the current run. */
  lemma UninstallFacts(w: Wiring, p: Recipes, x: Site, tid: nat)
    requires Inv(w, x.s) && Sited(w, p, x) && Uninstalling(x.s, tid)
    ensures Driver(x.s.threads[tid]) && HasOwner(x.s) && x.s.h.ownerOf[x.s.eng.epoch] == tid && x.copy == None
    ensures SameEvidence(x.s.eng.current, Some(x.s.threads[tid].rpc.run))
    ensures var run := x.s.threads[tid].rpc.run;
            run.id in x.origin && Backed(p(run.id), x.origin[run.id], EvidenceOf(run), x.cluster)
  {
    hide Inv, Backed, Covered;
    DriverKnows(w, x.s, tid);
    assert ThreadSited(p, x, x.s.threads[tid]);
  }

  /** If the engine finds nothing to complain of, the teardown was clean. */
  lemma CleanReport(items: seq<ResidueItem>, t: Teardowns.Torn)
    requires Reports(items, t.outcomes) && !AnyFailed(items) && !t.stopped
    ensures CleanTear(t)
  {
    var rest :| items == Inventory(t.outcomes) + rest && !AnyFailed(rest);
    FailedAppend(Inventory(t.outcomes), rest);
    CleanIfNothingFailed(t);
  }

  lemma UninstallSited(w: Wiring, p: Recipes, x: Site, tid: nat, a: Answer, world: nat -> Attempt)
    requires AllCover(p) && Inv(w, x.s) && Sited(w, p, x)
    ensures Sited(w, p, Acted(w, p, x, Uninstalls(tid, a, world)))
  {
    hide Inv, Sited, Backed, Covered, Reports, AnyFailed, Tear, CleanTear;
    var x' := Acted(w, p, x, Uninstalls(tid, a, world));
    if x'.s != x.s {
      var run := x.s.threads[tid].rpc.run;
      var t := TornDown(EvidenceOf(run), world, x.cluster);
      UninstallFacts(w, p, x, tid);
      Undo.TeardownKeeps(p(run.id), x.origin[run.id], EvidenceOf(run), x.cluster, world);
      if x.s.threads[tid].epoch !in x.s.canceled && !AnyFailed(a.items) {
        CleanReport(a.items, t);
        CleanTearLeaves(p(run.id), x.origin[run.id], EvidenceOf(run), x.cluster, world);
      }
      DriverSited(w, p, x, x', tid);
    }
  }

  lemma ActSited(w: Wiring, p: Recipes, x: Site, act: Act)
    requires AllCover(p) && Inv(w, x.s) && Sited(w, p, x)
    ensures Sited(w, p, Acted(w, p, x, act)) && Inv(w, Acted(w, p, x, act).s)
  {
    hide Inv, Sited, Next;
    match act
    case Turn(ev) =>
      TurnSited(w, p, x, ev);
      NextKeeps(w, x.s, ev);
    case Opens(tid, clients, probe) => OpensSited(w, p, x, tid, clients, probe);
    case Marks(tid, m) => MarksSited(w, p, x, tid, m);
    case Installs(tid, c) => InstallsSited(w, p, x, tid, c);
    case Uninstalls(tid, a, world) =>
      UninstallSited(w, p, x, tid, a, world);
      NextKeeps(w, x.s, Advance(tid, a));
  }

  // ---- the main results ----

  /** A process at the start: no run, or one whose evidence backs the cluster it finds. */
  predicate Begins(p: Recipes, x: Site) {
    && Safety.Booted(x.s) && x.copy == None && x.origin.Keys <= x.s.h.used
    && (x.s.eng.current.Some? ==> Rests(p, x, x.s.eng.current.value))
  }

  /** Whatever happens, the evidence in force is true of the cluster the run found, and covers all it installed. */
  lemma {:induction false} AlwaysSited(w: Wiring, p: Recipes, x: Site, acts: seq<Act>)
    requires AllCover(p) && Begins(p, x)
    ensures Inv(w, AfterActs(w, p, x, acts).s) && Sited(w, p, AfterActs(w, p, x, acts))
  {
    if acts == [] {
      Safety.Always(w, x.s, []);
    } else {
      hide Inv, Sited, Acted;
      AlwaysSited(w, p, x, acts[..|acts| - 1]);
      ActSited(w, p, AfterActs(w, p, x, acts[..|acts| - 1]), acts[|acts| - 1]);
    }
  }

  /** At every point of every schedule, every release there when the current run was started is still there. */
  lemma OriginalsSurvive(w: Wiring, p: Recipes, x: Site, acts: seq<Act>)
    requires AllCover(p) && Begins(p, x)
    ensures var y := AfterActs(w, p, x, acts);
            y.s.eng.current.Some? ==>
              y.s.eng.current.value.id in y.origin && y.origin[y.s.eng.current.value.id] <= y.cluster
  {
    AlwaysSited(w, p, x, acts);
  }

  /**
   * The run the engine hands to a teardown is the current one, evidence and all; and however its
   * commands go, nothing is removed that was there when that run was started.
   */
  lemma TeardownSparesOriginals(w: Wiring, p: Recipes, x: Site, acts: seq<Act>, tid: nat, world: nat -> Attempt)
    requires AllCover(p) && Begins(p, x) && Uninstalling(AfterActs(w, p, x, acts).s, tid)
    ensures var y := AfterActs(w, p, x, acts);
            var run := y.s.threads[tid].rpc.run;
            && y.s.eng.current.Some? && y.s.eng.current.value.id == run.id
            && y.s.eng.current.value.ownership == run.ownership && y.s.eng.current.value.components == run.components
            && run.id in y.origin
            && y.origin[run.id] <=
                 Tear(run.ownership, Ordering.Sort(ByIndexDescending, run.components), world, y.cluster).cluster
  {
    hide Tear;
    var y := AfterActs(w, p, x, acts);
    AlwaysSited(w, p, x, acts);
    UninstallFacts(w, p, y, tid);
    var run := y.s.threads[tid].rpc.run;
    Undo.TeardownKeeps(p(run.id), y.origin[run.id], EvidenceOf(run), y.cluster, world);
  }

  /**
   * A Reset that comes out clean leaves exactly the cluster its run found, plus the installs whose
   * namespace has no name or could not be snapshotted.
   */
  lemma CleanResetRestores(w: Wiring, p: Recipes, x: Site, acts: seq<Act>, tid: nat, a: Answer, world: nat -> Attempt)
    requires AllCover(p) && Begins(p, x) && Uninstalling(AfterActs(w, p, x, acts).s, tid)
    requires var y := AfterActs(w, p, x, acts + [Uninstalls(tid, a, world)]);
             tid in y.s.threads && y.s.threads[tid].Tearing? && CameOutClean(y.s.threads[tid].rpc)
    ensures var y := AfterActs(w, p, x, acts);
            var run := y.s.threads[tid].rpc.run;
            && run.id in y.origin
            && AfterActs(w, p, x, acts + [Uninstalls(tid, a, world)]).cluster
               == y.origin[run.id] + (set r | r in y.cluster && Unproven(run.ownership, r))
  {
    hide Inv, Sited, Reports, AnyFailed, Tear, CleanTear, Backed, Unproven;
    assert (acts + [Uninstalls(tid, a, world)])[..|acts|] == acts;
    var y := AfterActs(w, p, x, acts);
    AlwaysSited(w, p, x, acts);
    UninstallFacts(w, p, y, tid);
    var run := y.s.threads[tid].rpc.run;
    CleanReport(a.items, TornDown(EvidenceOf(run), world, y.cluster));
    CleanTearLeaves(p(run.id), y.origin[run.id], EvidenceOf(run), y.cluster, world);
  }

  /** So whenever a Reset is about to end Done, nothing else is left in the cluster. */
  lemma DoneMeansRestored(w: Wiring, p: Recipes, x: Site, acts: seq<Act>, tid: nat)
    requires AllCover(p) && Begins(p, x)
    requires var y := AfterActs(w, p, x, acts);
             tid in y.s.threads && y.s.threads[tid].Tearing? && y.s.threads[tid].rpc == ResetFinish(false)
    ensures var y := AfterActs(w, p, x, acts);
            && y.s.eng.current.Some? && y.s.eng.current.value.id in y.origin
            && var r := y.s.eng.current.value;
               y.origin[r.id] <= y.cluster &&
                 forall c :: c in y.cluster && c !in y.origin[r.id] ==> Unproven(r.ownership, c)
  {
    AlwaysSited(w, p, x, acts);
    hide Inv, Unproven;
    assert ThreadSited(p, AfterActs(w, p, x, acts), AfterActs(w, p, x, acts).s.threads[tid]);
    OriginalsSurvive(w, p, x, acts);
  }
}
