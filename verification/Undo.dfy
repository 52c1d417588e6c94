/**
 * One attempt of Apply and one teardown, against the cluster: what the snapshot, each marker, each
 * install and each Reset keep of the evidence a run carries about the cluster it found.
 * Deployments runs them inside the engine, over whole schedules.
 */
module Undo {
  import opened Wrappers
  import opened Runs
  import opened Ordering
  import opened Ownerships
  import opened Teardowns
  import Machine

  /** The recipe: each component's namespace, and the namespaces the snapshot is asked about. */
  datatype Recipe = Recipe(home: map<string, string>, namespaces: seq<string>)

  /** Every component namespace that has a name is snapshotted. */
  predicate CoversHomes(p: Recipe) {
    "" !in p.namespaces && forall c :: c in p.home && p.home[c] != "" ==> p.home[c] in p.namespaces
  }

  /** The part of the run Apply and Reset work on. */
  datatype Evidence = Evidence(own: Ownership, rows: seq<ComponentState>)

  function EvidenceOf(r: Run): Evidence { Evidence(r.ownership, r.components) }

  /** A hazardous release of the recipe's own was there before. */
  predicate Clashes(p: Recipe, own: Ownership) {
    exists i :: 0 <= i < |own.releases| && own.releases[i].name in p.home && own.releases[i].name in REINSTALL_HAZARDS
  }

  /** The snapshot, taken on the first attempt only, and whether Apply refuses to install over it. */
  function Opening(p: Recipe, run: Evidence, clients: bool, probe: string -> Probe): (Ownership, bool) {
    if |run.own.namespaces| == 0 then
      var own := SnapshotOf(clients, probe, SnapshotNames(p.namespaces));
      (own, Clashes(p, own))
    else (run.own, false)
  }

  /** Apply's opening, on the run it was handed; dir is where Bundle left its files. */
  method BeginApply(p: Recipe, run: Evidence, dir: string, clients: bool, probe: string -> Probe)
    returns (own: Ownership, res: Result<()>)
    ensures dir == "" ==> own == run.own && res == Err(InvalidRequest)
    ensures dir != "" ==> own == Opening(p, run, clients, probe).0
    ensures dir != "" ==> res == if Opening(p, run, clients, probe).1 then Err(Conflict) else Ok(())
  {
    own := run.own;
    if |dir| == 0 { return own, Err(InvalidRequest); }
    var first := |own.namespaces| == 0;
    if first {
      own := SnapshotOwnership(clients, probe, p.namespaces);
      var clash := AlreadyInstalled(own, p.home.Keys);
      ClashFound(p, own, clash);
      if |clash| > 0 { return own, Err(Conflict); }
    }
    return own, Ok(());
  }

  lemma ClashFound(p: Recipe, own: Ownership, clash: seq<ReleaseRef>)
    requires forall r :: r in clash <==> r in own.releases && r.name in p.home && r.name in REINSTALL_HAZARDS
    ensures |clash| > 0 <==> Clashes(p, own)
  {
    if |clash| > 0 {
      assert clash[0] in clash && clash[0] in own.releases;
      var i :| 0 <= i < |own.releases| && own.releases[i] == clash[0];
      assert own.releases[i].name in p.home;
    }
    if i :| 0 <= i < |own.releases| && own.releases[i].name in p.home && own.releases[i].name in REINSTALL_HAZARDS {
      assert own.releases[i] in clash;
    }
  }

  /** An install is refused exactly over a kai-scheduler of the recipe's own that was there before. */
  lemma RefusedOverKai(p: Recipe, own: Ownership)
    ensures Clashes(p, own) <==>
              "kai-scheduler" in p.home && exists r :: r in own.releases && r.name == "kai-scheduler"
  {
    if r :| r in own.releases && r.name == "kai-scheduler" {
      var i :| 0 <= i < |own.releases| && own.releases[i] == r;
    }
  }

  /** The refusal is the first attempt's alone: with the snapshot it left behind, a Retry installs on that snapshot. */
  lemma RefusedOnlyOnce(p: Recipe, run: Evidence, clients: bool, probe: string -> Probe, clients': bool,
    probe': string -> Probe)
    requires Opening(p, run, clients, probe).1
    ensures var own := Opening(p, run, clients, probe).0;
            run.own.namespaces == [] && Opening(p, run.(own := own), clients', probe') == (own, false)
  {
    var names := SnapshotNames(p.namespaces);
    var own := SnapshotOf(clients, probe, names);
    if names != [] { assert |own.namespaces| > 0; }
  }

  // ---- the invariant ----

  /** The evidence is about the cluster as it was, and covers every row. */
  predicate Truthful(p: Recipe, original: set<ReleaseRef>, e: Evidence) {
    && (forall r :: r in e.own.releases ==> r in original)
    && (forall r :: r in original && Recorded(e.own, r.namespace) && !Unprovable(e.own, r.namespace) ==>
      r in e.own.releases)
    && UniqueNames(e.rows)
    && (forall c :: c in e.rows ==>
        c.name in p.home && (c.namespace == "" || (c.namespace == p.home[c.name] && Recorded(e.own, c.namespace))))
  }

  /** A snapshot was taken, so every component namespace is in it. */
  predicate Covered(p: Recipe, own: Ownership) { forall ns :: ns in p.namespaces ==> Recorded(own, ns) }

  /** What was there still is, and whatever else is there is an installed component's, with its row. */
  predicate Backed(p: Recipe, original: set<ReleaseRef>, e: Evidence, cluster: set<ReleaseRef>) {
    && Truthful(p, original, e) && (e.own.namespaces == [] || Covered(p, e.own))
    && original <= cluster
    && (forall r :: r in cluster && r !in original ==>
          r.name in p.home && r.namespace == p.home[r.name] && HasRow(e.rows, r.name, r.namespace))
  }

  lemma HasRowIn(rows: seq<ComponentState>, name: string, ns: string)
    ensures HasRow(rows, name, ns) <==> exists c :: c in rows && c.name == name && c.namespace == ns
  {
    if c :| c in rows && c.name == name && c.namespace == ns {
      var i :| 0 <= i < |rows| && rows[i] == c;
      assert rows[i].name == name;
    }
  }

  lemma SortKeepsRows(rows: seq<ComponentState>, name: string, ns: string)
    ensures HasRow(Sort(ByIndexDescending, rows), name, ns) <==> HasRow(rows, name, ns)
  {
    forall c ensures c in Sort(ByIndexDescending, rows) <==> c in rows { SortHas(ByIndexDescending, rows, c); }
    HasRowIn(rows, name, ns);
    HasRowIn(Sort(ByIndexDescending, rows), name, ns);
  }

  /**
   * The first snapshot is evidence of the original cluster: until it is taken nothing with a
   * namespace is installed.
   */
  lemma SnapshotTruthful(p: Recipe, original: set<ReleaseRef>, e: Evidence, cluster: set<ReleaseRef>, clients: bool,
    probe: string -> Probe)
    requires CoversHomes(p) && Backed(p, original, e, cluster) && e.own.namespaces == []
    requires forall ns :: ns in p.namespaces ==> Honest(probe, ns, cluster)
    ensures var own := SnapshotOf(clients, probe, SnapshotNames(p.namespaces));
            Truthful(p, original, Evidence(own, e.rows)) && Covered(p, own)
  {
    var names := SnapshotNames(p.namespaces);
    SnapshotNamesSorted(p.namespaces);
    SnapshotIsEvidence(clients, probe, names, cluster);
    forall c | c in e.rows ensures c.namespace == "" {
      assert !Recorded(e.own, c.namespace);
    }
    forall r | r in cluster && r.namespace in names ensures r in original {
      HasRowIn(e.rows, r.name, r.namespace);
    }
  }

  lemma OpeningKeeps(p: Recipe, original: set<ReleaseRef>, e: Evidence, cluster: set<ReleaseRef>, clients: bool,
    probe: string -> Probe)
    requires CoversHomes(p) && Backed(p, original, e, cluster)
    requires forall ns :: ns in p.namespaces ==> Honest(probe, ns, cluster)
    ensures var own := Opening(p, e, clients, probe).0;
            Backed(p, original, e.(own := own), cluster) && Covered(p, own)
  {
    if |e.own.namespaces| == 0 {
      SnapshotTruthful(p, original, e, cluster, clients, probe);
    }
    hide Truthful, Covered;
  }

  lemma MarkingKeeps(p: Recipe, original: set<ReleaseRef>, e: Evidence, cluster: set<ReleaseRef>, m: Marker)
    requires CoversHomes(p) && Backed(p, original, e, cluster) && Covered(p, e.own)
    requires m.name in p.home && (m.namespace == "" || m.namespace == p.home[m.name])
    ensures Backed(p, original, e.(rows := Upserted(e.rows, m)), cluster)
  {
    var rows, rows' := e.rows, Upserted(e.rows, m);
    UpsertKeepsRows(rows, m);
    forall r | r in cluster && r !in original ensures HasRow(rows', r.name, r.namespace) {
      HasRowIn(rows, r.name, r.namespace);
      HasRowIn(rows', r.name, r.namespace);
      var c :| c in rows && c.name == r.name && c.namespace == r.namespace;
      assert c.name == m.name ==> Merge(c, m) in rows';
    }
  }

  lemma InstallKeeps(p: Recipe, original: set<ReleaseRef>, e: Evidence, cluster: set<ReleaseRef>, c: string)
    requires Backed(p, original, e, cluster) && c in p.home && HasRow(e.rows, c, p.home[c])
    ensures Backed(p, original, e, cluster + {ReleaseRef(c, p.home[c])})
  {
    hide Truthful, Covered;
  }

  /** What a teardown on the run's evidence leaves of the cluster. */
  function TornDown(e: Evidence, world: nat -> Attempt, cluster: set<ReleaseRef>): Teardowns.Torn {
    Tear(e.own, Sort(ByIndexDescending, e.rows), world, cluster)
  }

  /** A teardown takes nothing original: what it may remove is recorded, and the evidence does not list it. */
  lemma TeardownKeeps(p: Recipe, original: set<ReleaseRef>, e: Evidence, cluster: set<ReleaseRef>,
    world: nat -> Attempt)
    requires CoversHomes(p) && Backed(p, original, e, cluster)
    ensures Backed(p, original, e, TornDown(e, world, cluster).cluster)
  {
    var rows := Sort(ByIndexDescending, e.rows);
    RemovesOnlyProvable(e.own, rows, world, cluster);
    forall r | r in original ensures r in TornDown(e, world, cluster).cluster {
      if Provable(e.own, rows, r) {
        SortKeepsRows(e.rows, r.name, r.namespace);
        HasRowIn(e.rows, r.name, r.namespace);
      }
    }
  }

  /** What this run's evidence cannot prove its own: installs in a namespace without a name or a snapshot. */
  predicate Unproven(own: Ownership, r: ReleaseRef) { r.namespace == "" || Unprovable(own, r.namespace) }

  /**
   * After a clean teardown the cluster is exactly the original one, plus the installs whose namespace
   * has no name or could not be snapshotted.
   */
  lemma CleanTearLeaves(p: Recipe, original: set<ReleaseRef>, e: Evidence, cluster: set<ReleaseRef>,
    world: nat -> Attempt)
    requires CoversHomes(p) && Backed(p, original, e, cluster) && CleanTear(TornDown(e, world, cluster))
    ensures TornDown(e, world, cluster).cluster == original + (set r | r in cluster && Unproven(e.own, r))
  {
    TeardownKeeps(p, original, e, cluster, world);
    var rows := Sort(ByIndexDescending, e.rows);
    CleanRemovesAllProvable(e.own, rows, world, cluster);
    RemovesOnlyProvable(e.own, rows, world, cluster);
    forall r | r in cluster && r !in original
      ensures Provable(e.own, rows, r) <==> !Unproven(e.own, r)
    {
      SortKeepsRows(e.rows, r.name, r.namespace);
    }
    hide Provable, Unproven, Truthful, Sort, CleanTear;
  }

  // ---- the verdict the engine draws ----

  /** Some command of the teardown failed: an uninstall, or the deletion of an object it left. */
  predicate SomethingFailed(outcomes: seq<ReleaseOutcome>) {
    exists i :: 0 <= i < |outcomes| && OutcomeFailed(outcomes[i])
  }

  predicate OutcomeFailed(o: ReleaseOutcome) {
    o.err != "" || exists j :: 0 <= j < |o.objects| && o.objects[j].err != ""
  }

  lemma FailedAppend(a: seq<ResidueItem>, b: seq<ResidueItem>)
    ensures Machine.AnyFailed(a + b) <==> Machine.AnyFailed(a) || Machine.AnyFailed(b)
  {
    var all := a + b;
    if Machine.AnyFailed(a) {
      var i :| 0 <= i < |a| && a[i].err != "";
      assert all[i].err != "";
    }
    if Machine.AnyFailed(b) {
      var i :| 0 <= i < |b| && b[i].err != "";
      assert all[|a| + i].err != "";
    }
  }

  lemma OutcomeItemsFail(o: ReleaseOutcome)
    ensures Machine.AnyFailed([ReleaseItem(o)] + ObjectItems(o.objects)) <==> OutcomeFailed(o)
  {
    FailedAppend([ReleaseItem(o)], ObjectItems(o.objects));
    assert Machine.AnyFailed([ReleaseItem(o)]) <==> o.err != "" by {
      if o.err != "" { assert [ReleaseItem(o)][0].err != ""; }
    }
    if j :| 0 <= j < |o.objects| && o.objects[j].err != "" {
      assert ObjectItems(o.objects)[j].err != "";
    }
  }

  /**
   * The inventory shows a failure exactly when a command failed, so together with the cancellation
   * check Reset ends Done only after a clean teardown.
   */
  lemma {:induction false} InventoryShowsFailures(outcomes: seq<ReleaseOutcome>)
    ensures Machine.AnyFailed(Inventory(outcomes)) <==> SomethingFailed(outcomes)
  {
    hide OutcomeFailed, ReleaseItem, ObjectItems;
    if outcomes != [] {
      var n := |outcomes| - 1;
      var o := outcomes[n];
      InventoryShowsFailures(outcomes[..n]);
      OutcomeItemsFail(o);
      FailedAppend(Inventory(outcomes[..n]), [ReleaseItem(o)] + ObjectItems(o.objects));
      assert Inventory(outcomes) == Inventory(outcomes[..n]) + ([ReleaseItem(o)] + ObjectItems(o.objects));
      if SomethingFailed(outcomes[..n]) {
        var i :| 0 <= i < n && OutcomeFailed(outcomes[..n][i]);
        assert OutcomeFailed(outcomes[i]);
      }
      if OutcomeFailed(o) { assert OutcomeFailed(outcomes[n]); }
      if i :| 0 <= i < |outcomes| && OutcomeFailed(outcomes[i]) {
        if i < n { assert OutcomeFailed(outcomes[..n][i]); }
      }
    }
  }

  lemma CleanIfNothingFailed(t: Teardowns.Torn)
    requires !t.stopped && !Machine.AnyFailed(Inventory(t.outcomes))
    ensures CleanTear(t)
  {
    InventoryShowsFailures(t.outcomes);
    forall i | 0 <= i < |t.outcomes| ensures t.outcomes[i].err == "" {
      if t.outcomes[i].err != "" { assert OutcomeFailed(t.outcomes[i]); }
    }
  }
}
