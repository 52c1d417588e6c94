/** The run record: the one entity the console drives, persists and tears down. */
module Runs {
  import opened Wrappers

  datatype Phase = NoPhase | Discover | Recommend | Bundle | Apply | Validate | Prove | UnknownPhase

  datatype State = Idle | Running | AwaitingDecision | Failed | Active | Done | Resetting | UnknownState

  /** Helm identifies a release by name and namespace together. */
  datatype ReleaseRef = ReleaseRef(name: string, namespace: string)

  /** One namespace as it was before Apply; a non-empty snapshotErr means it could not be observed. */
  datatype NamespaceRef = NamespaceRef(name: string, existed: bool, snapshotErr: string)

  /** What the cluster held before this run's first Apply. */
  datatype Ownership = Ownership(releases: seq<ReleaseRef>, namespaces: seq<NamespaceRef>)

  datatype ComponentState = ComponentState(name: string, index: int, total: int, namespace: string, status: string)

  datatype ItemKind = KindRelease | KindNamespace | KindObject

  /** Why an inventory item was left in place; the operator reads each as a sentence. */
  datatype Skip = NotSkipped | Canceled | NoNamespace | BeforeUnknown | AlreadyThere
                | ExistedBefore | CreatedByRun | CreatedByValidator | CreatedForAgent

  datatype ResidueItem = ResidueItem(kind: ItemKind, name: string, namespace: string,
                                     removed: bool, skip: Skip, created: bool, err: string)

  datatype Residue = Residue(incomplete: bool, items: seq<ResidueItem>)

  datatype Workload = Workload(namespace: string, kind: string, name: string)

  datatype AgentNamespace = AgentNamespace(name: string, uid: string, created: bool)

  datatype PhaseSummary = PhaseSummary(phase: string, status: string, seconds: int,
                                       tests: int, passed: int, failed: int, skipped: int)

  datatype Validation = Validation(skipped: string, reportPath: string, phases: seq<PhaseSummary>, namespace: string)

  type Bytes = seq<bv8>

  /** Timestamps count from Go's zero time, so 0 is the zero value. */
  datatype Run = Run(
    id: string,
    state: State,
    phase: Phase,
    decisions: map<string, string>,
    artifacts: map<string, Bytes>,
    pending: seq<string>,
    components: seq<ComponentState>,
    workload: Workload,
    stepIndex: int,
    err: string,
    cleanupUnconfirmed: bool,
    clusterUID: string,
    toolchain: map<string, string>,
    startedAt: nat,
    updatedAt: nat,
    truncated: seq<string>,
    ownership: Ownership,
    residue: Residue,
    validation: Validation,
    agentNamespace: AgentNamespace
  )

  const NO_WORKLOAD := Workload("", "", "")
  const NO_OWNERSHIP := Ownership([], [])
  const NO_RESIDUE := Residue(false, [])
  const NO_VALIDATION := Validation("", "", [], "")
  const NO_AGENT_NAMESPACE := AgentNamespace("", "", false)

  /** A goroutine owns a run in one of these states. */
  predicate IsLive(s: State) {
    s == Running || s == AwaitingDecision || s == Resetting
  }

  predicate IsTerminal(s: State) {
    s == Done || s == Failed
  }

  predicate HasUnconfirmedCleanup(r: Run) {
    r.state == Failed && r.cleanupUnconfirmed
  }

  predicate HasIncompleteTeardown(r: Run) {
    r.residue.incomplete
  }

  /** The three shapes of run Stop accepts. */
  predicate Stoppable(r: Run) {
    || r.state == Active
    || (r.state == Done && r.workload != NO_WORKLOAD)
    || HasUnconfirmedCleanup(r)
  }

  /** The name Prove gives a run's workload: a function of the run ID alone. */
  function WorkloadName(runId: string): string {
    "prove-" + runId
  }

  const PROVE_NAMESPACE := "aicrme-prove"

  function WorkloadOf(runId: string): Workload {
    Workload(PROVE_NAMESPACE, "Job", WorkloadName(runId))
  }
}
