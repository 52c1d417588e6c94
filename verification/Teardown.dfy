/**
 * What Reset removes, decided against the ownership snapshot. The cluster is the set of helm
 * releases in it; every command is answered by the world, and an uninstall that fails may or may
 * not have removed its release.
 */
module Teardowns {
  import opened Wrappers
  import opened Runs
  import opened Ordering
  import opened Ownerships

  /** How a purge command went, and whether a cancellation was seen after it. */
  datatype Command = Command(err: string, cut: bool)

  /**
   * What one row's commands come back with: the uninstall's error and whether the release is gone
   * all the same, a cancellation seen before the purge, the purge's answers, and a cancellation
   * seen at the end.
   */
  datatype Attempt = Attempt(err: string, gone: bool, cut: bool, purge: nat -> Command, stop: bool)

  /** The objects kai-scheduler's chart tells helm to keep. */
  datatype PurgeTarget = DefaultShard | DefaultQueue | DefaultParentQueue | KaiConfig
  {
    function Resource(): string {
      match this
      case DefaultShard => "schedulingshard.kai.scheduler/default"
      case DefaultQueue => "queue.scheduling.run.ai/default-queue"
      case DefaultParentQueue => "queue.scheduling.run.ai/default-parent-queue"
      case KaiConfig => "config.kai.scheduler/kai-config"
    }

    function Namespace(): string { if this == KaiConfig then "kai-scheduler" else "" }
  }

  datatype ObjectOutcome = ObjectOutcome(target: PurgeTarget, err: string)

  datatype ReleaseOutcome = ReleaseOutcome(name: string, namespace: string, skip: Skip, err: string,
    objects: seq<ObjectOutcome>)

  /** No other component leaves objects behind. */
  function TargetsOf(component: string): seq<PurgeTarget> {
    if component == "kai-scheduler" then [DefaultShard, DefaultQueue, DefaultParentQueue, KaiConfig] else []
  }

  function RefTo(c: ComponentState): ReleaseRef { ReleaseRef(c.name, c.namespace) }

  /** Why a row is left alone, in the order the reasons are tried. */
  function SkipFor(own: Ownership, c: ComponentState, stopped: bool): Skip {
    if stopped then Canceled
    else if c.namespace == "" then NoNamespace
    else if Unprovable(own, c.namespace) then BeforeUnknown
    else if RefTo(c) in own.releases then AlreadyThere
    else NotSkipped
  }

  /** The first reason that applies is the one given, and a row with none is torn down. */
  lemma FirstReasonApplies(own: Ownership, c: ComponentState, stopped: bool)
    ensures var unseen := exists n :: n in own.namespaces && n.name == c.namespace && n.snapshotErr != "";
            SkipFor(own, c, stopped) ==
              (if stopped then Canceled else if c.namespace == "" then NoNamespace else if unseen then BeforeUnknown
               else if ReleaseRef(c.name, c.namespace) in own.releases then AlreadyThere else NotSkipped)
  {
  }

  function ByIndexDescending(a: ComponentState, b: ComponentState): bool { a.index > b.index }

  // ---- purge ----

  function ObjectOf(t: PurgeTarget, answer: Command): ObjectOutcome {
    ObjectOutcome(t, answer.err)
  }

  /** How many objects are attempted from the i-th on: all, or up to the first after which a cancellation is seen. */
  function Reach(n: nat, answers: nat -> Command, i: nat): (k: nat)
    requires i <= n
    ensures i <= k <= n && (forall j :: i <= j < k - 1 ==> !answers(j).cut) && (k < n ==> i < k && answers(k - 1).cut)
    decreases n - i
  {
    if i == n then n else if answers(i).cut then i + 1 else Reach(n, answers, i + 1)
  }

  function Purged(targets: seq<PurgeTarget>, answers: nat -> Command): seq<ObjectOutcome> {
    seq(Reach(|targets|, answers, 0), j requires 0 <= j < |targets| => ObjectOf(targets[j], answers(j)))
  }

  lemma PurgedIs(targets: seq<PurgeTarget>, answers: nat -> Command, out: seq<ObjectOutcome>)
    requires |out| == Reach(|targets|, answers, 0)
    requires forall j :: 0 <= j < |out| ==> out[j] == ObjectOf(targets[j], answers(j))
    ensures out == Purged(targets, answers)
  {
  }

  lemma ReachStep(n: nat, answers: nat -> Command, i: nat)
    requires i < n
    ensures Reach(n, answers, i) == if answers(i).cut then i + 1 else Reach(n, answers, i + 1)
  {
  }

  lemma ReachEnd(n: nat, answers: nat -> Command)
    ensures Reach(n, answers, n) == n
  {
  }

  method Purge(targets: seq<PurgeTarget>, answers: nat -> Command) returns (out: seq<ObjectOutcome>)
    ensures out == Purged(targets, answers)
  {
    hide Purged, ObjectOf, Reach;
    out := [];
    ReachEnd(|targets|, answers);
    for i := 0 to |targets|
      invariant |out| == i && Reach(|targets|, answers, i) == Reach(|targets|, answers, 0)
      invariant Reach(|targets|, answers, |targets|) == |targets|
      invariant forall j :: 0 <= j < i ==> out[j] == ObjectOf(targets[j], answers(j))
    {
      ReachStep(|targets|, answers, i);
      out := out + [ObjectOf(targets[i], answers(i))];
      if answers(i).cut {
        PurgedIs(targets, answers, out);
        return;
      }
    }
    PurgedIs(targets, answers, out);
  }

  // ---- releases ----

  /** A teardown so far: the cluster, whether it was canceled, and one outcome per row considered. */
  datatype Torn = Torn(cluster: set<ReleaseRef>, stopped: bool, outcomes: seq<ReleaseOutcome>)

  function TearRow(own: Ownership, c: ComponentState, a: Attempt, t: Torn): Torn {
    var skip := SkipFor(own, c, t.stopped);
    if skip != NotSkipped then t.(outcomes := t.outcomes + [ReleaseOutcome(c.name, c.namespace, skip, "", [])])
    else
      var objects := if a.err == "" && !a.cut then Purged(TargetsOf(c.name), a.purge) else [];
      Torn(if a.err == "" || a.gone then t.cluster - {RefTo(c)} else t.cluster, a.stop,
           t.outcomes + [ReleaseOutcome(c.name, c.namespace, NotSkipped, a.err, objects)])
  }

  function Tear(own: Ownership, rows: seq<ComponentState>, world: nat -> Attempt, cluster: set<ReleaseRef>): Torn {
    if rows == [] then Torn(cluster, false, [])
    else TearRow(own, rows[|rows| - 1], world(|rows| - 1), Tear(own, rows[..|rows| - 1], world, cluster))
  }

  /** Install order backwards: the greatest index first, and rows of one index as they were given. */
  predicate Backwards(comps: seq<ComponentState>, order: seq<nat>) {
    && Reordering(order, |comps|)
    && forall i, j :: 0 <= i < j < |order| ==>
        var a, b := comps[order[i]], comps[order[j]];
        b.index < a.index || (b.index == a.index && order[i] < order[j])
  }

  lemma SortIsBackwards(comps: seq<ComponentState>) returns (order: seq<nat>)
    ensures Backwards(comps, order) && |Sort(ByIndexDescending, comps)| == |comps|
    ensures forall i :: 0 <= i < |comps| ==> Sort(ByIndexDescending, comps)[i] == comps[order[i]]
  {
    order := SortReorders(ByIndexDescending, comps);
  }

  /** The outcomes are the rows', one each, taken in that order. */
  ghost predicate TornBackwards(comps: seq<ComponentState>, outcomes: seq<ReleaseOutcome>) {
    exists order :: Backwards(comps, order) && |outcomes| == |order| && forall i :: 0 <= i < |order| ==>
      outcomes[i].name == comps[order[i]].name && outcomes[i].namespace == comps[order[i]].namespace
  }

  /** So no uninstall is attempted before that of a row with a greater index. */
  lemma TearsBackwards(own: Ownership, comps: seq<ComponentState>, world: nat -> Attempt, before: set<ReleaseRef>)
    ensures TornBackwards(comps, Tear(own, Sort(ByIndexDescending, comps), world, before).outcomes)
  {
    hide Tear, Sort, SkipFor;
    var rows := Sort(ByIndexDescending, comps);
    var order := SortIsBackwards(comps);
    OneOutcomeEach(own, rows, world, before);
    forall i | 0 <= i < |order|
      ensures Tear(own, rows, world, before).outcomes[i].name == comps[order[i]].name
      ensures Tear(own, rows, world, before).outcomes[i].namespace == comps[order[i]].namespace
    {
      OutcomeOfRow(own, rows, world, before, i);
    }
  }

  /** The evidence as two look-up tables: what was there already, and the namespaces that could not be seen. */
  method Tables(own: Ownership) returns (adopted: set<ReleaseRef>, unprovable: map<string, string>)
    ensures forall r :: r in adopted <==> r in own.releases
    ensures forall ns :: ns in unprovable <==> Unprovable(own, ns)
    ensures forall ns :: ns in unprovable ==> unprovable[ns] != ""
  {
    adopted := {};
    for i := 0 to |own.releases|
      invariant forall r :: r in adopted <==> r in own.releases[..i]
    {
      adopted := adopted + {own.releases[i]};
      assert own.releases[..i + 1] == own.releases[..i] + [own.releases[i]];
    }
    assert own.releases[..|own.releases|] == own.releases;
    unprovable := map[];
    for i := 0 to |own.namespaces|
      invariant forall ns :: ns in unprovable <==> exists j ::
                0 <= j < i && own.namespaces[j].name == ns && own.namespaces[j].snapshotErr != ""
      invariant forall ns :: ns in unprovable ==> unprovable[ns] != ""
    {
      if own.namespaces[i].snapshotErr != "" {
        unprovable := unprovable[own.namespaces[i].name := own.namespaces[i].snapshotErr];
      }
    }
  }

  /** One pass of the loop. */
  method Release(ghost own: Ownership, adopted: set<ReleaseRef>, unprovable: map<string, string>, c: ComponentState,
    a: Attempt, before: set<ReleaseRef>, stopped: bool)
    returns (out: ReleaseOutcome, cluster: set<ReleaseRef>, canceled: bool)
    requires forall r :: r in adopted <==> r in own.releases
    requires forall ns :: ns in unprovable <==> Unprovable(own, ns)
    requires forall ns :: ns in unprovable ==> unprovable[ns] != ""
    ensures forall done :: TearRow(own, c, a, Torn(before, stopped, done)) == Torn(cluster, canceled, done + [out])
  {
    hide Unprovable, Purged;
    out, cluster, canceled := ReleaseOutcome(c.name, c.namespace, NotSkipped, "", []), before, stopped;
    if canceled {
      out := out.(skip := Canceled);
    } else if c.namespace == "" {
      out := out.(skip := NoNamespace);
    } else if c.namespace in unprovable && unprovable[c.namespace] != "" {
      out := out.(skip := BeforeUnknown);
    } else if ReleaseRef(c.name, c.namespace) in adopted {
      out := out.(skip := AlreadyThere);
    } else {
      out := out.(err := a.err);
      if a.err == "" || a.gone {
        cluster := cluster - {ReleaseRef(c.name, c.namespace)};
      }
      if out.err == "" && !a.cut {
        var objects := Purge(TargetsOf(c.name), a.purge);
        out := out.(objects := objects);
      }
      if a.stop { canceled := true; }
    }
  }

  /** The whole teardown, in reverse install order. */
  method Releases(comps: seq<ComponentState>, own: Ownership, world: nat -> Attempt, before: set<ReleaseRef>)
    returns (outcomes: seq<ReleaseOutcome>, cluster: set<ReleaseRef>, canceled: bool)
    ensures Torn(cluster, canceled, outcomes) == Tear(own, Sort(ByIndexDescending, comps), world, before)
    ensures TornBackwards(comps, outcomes)
  {
    hide TornBackwards, Unprovable, Sort, TearRow;
    TearsBackwards(own, comps, world, before);
    var ordered := Sort(ByIndexDescending, comps);
    var adopted, unprovable := Tables(own);
    outcomes, cluster, canceled := [], before, false;
    for i := 0 to |ordered|
      invariant Torn(cluster, canceled, outcomes) == Tear(own, ordered[..i], world, before)
    {
      assert ordered[..i + 1][..i] == ordered[..i];
      var out;
      out, cluster, canceled := Release(own, adopted, unprovable, ordered[i], world(i), cluster, canceled);
      outcomes := outcomes + [out];
    }
    assert ordered[..|ordered|] == ordered;
  }

  // ---- what a teardown may and must remove ----

  /** A release this run can prove it created: it has a row, and its namespace's snapshot does not list it. */
  predicate Provable(own: Ownership, rows: seq<ComponentState>, r: ReleaseRef) {
    && r.namespace != "" && !Unprovable(own, r.namespace) && r !in own.releases
    && HasRow(rows, r.name, r.namespace)
  }

  /** Nothing is removed that the evidence does not prove this run's, canceled or not, failing or not. */
  lemma {:induction false} RemovesOnlyProvable(own: Ownership, rows: seq<ComponentState>, world: nat -> Attempt,
    cluster: set<ReleaseRef>)
    ensures Tear(own, rows, world, cluster).cluster <= cluster
    ensures forall r :: r in cluster && r !in Tear(own, rows, world, cluster).cluster ==> Provable(own, rows, r)
  {
    if rows != [] {
      var n := |rows| - 1;
      RemovesOnlyProvable(own, rows[..n], world, cluster);
      forall r | r in cluster && r !in Tear(own, rows, world, cluster).cluster ensures Provable(own, rows, r) {
        if Provable(own, rows[..n], r) {
          var i :| 0 <= i < n && rows[..n][i].name == r.name && rows[..n][i].namespace == r.namespace;
          assert rows[i].name == r.name && rows[i].namespace == r.namespace;
        } else {
          assert r == RefTo(rows[n]);
        }
      }
    }
  }

  /** No command failed and no cancellation was seen. */
  predicate CleanTear(t: Torn) {
    !t.stopped && forall i :: 0 <= i < |t.outcomes| ==> t.outcomes[i].err == ""
  }

  /** A clean teardown removes every release the evidence proves this run's. */
  lemma {:induction false} CleanRemovesAllProvable(own: Ownership, rows: seq<ComponentState>, world: nat -> Attempt,
    cluster: set<ReleaseRef>)
    requires CleanTear(Tear(own, rows, world, cluster))
    ensures forall r :: r in Tear(own, rows, world, cluster).cluster ==> r in cluster && !Provable(own, rows, r)
  {
    RemovesOnlyProvable(own, rows, world, cluster);
    if rows != [] {
      var n := |rows| - 1;
      var t, t' := Tear(own, rows[..n], world, cluster), Tear(own, rows, world, cluster);
      assert CleanTear(t) by {
        forall i | 0 <= i < |t.outcomes| ensures t.outcomes[i].err == "" { assert t'.outcomes[i] == t.outcomes[i]; }
      }
      assert t'.outcomes[|t.outcomes|].err == "";
      CleanRemovesAllProvable(own, rows[..n], world, cluster);
      forall r | r in t'.cluster ensures !Provable(own, rows, r) {
        assert r in t.cluster;
        if Provable(own, rows, r) {
          var i :| 0 <= i < |rows| && rows[i].name == r.name && rows[i].namespace == r.namespace;
        }
      }
    }
  }

  /** What o says of row c: the reason it was skipped, or what its uninstall answered. */
  predicate Answers(own: Ownership, c: ComponentState, a: Attempt, stopped: bool, o: ReleaseOutcome) {
    && o.name == c.name && o.namespace == c.namespace && o.skip == SkipFor(own, c, stopped)
    && o.err == (if o.skip == NotSkipped then a.err else "")
    && (o.objects != [] ==> o.skip == NotSkipped && o.err == "" && o.name == "kai-scheduler")
  }

  /** One outcome per row, in the order considered; objects only ever follow a confirmed uninstall of kai-scheduler. */
  lemma {:induction false} OutcomeOfRow(own: Ownership, rows: seq<ComponentState>, world: nat -> Attempt,
    cluster: set<ReleaseRef>, i: nat)
    requires i < |rows|
    ensures |Tear(own, rows, world, cluster).outcomes| == |rows|
    ensures Answers(own, rows[i], world(i), Tear(own, rows[..i], world, cluster).stopped,
            Tear(own, rows, world, cluster).outcomes[i])
  {
    var n := |rows| - 1;
    OneOutcomeEach(own, rows, world, cluster);
    OneOutcomeEach(own, rows[..n], world, cluster);
    if i < n {
      OutcomeOfRow(own, rows[..n], world, cluster, i);
      assert rows[..n][..i] == rows[..i];
    }
  }

  lemma {:induction false} OneOutcomeEach(own: Ownership, rows: seq<ComponentState>, world: nat -> Attempt,
    cluster: set<ReleaseRef>)
    ensures |Tear(own, rows, world, cluster).outcomes| == |rows|
  {
    if rows != [] {
      OneOutcomeEach(own, rows[..|rows| - 1], world, cluster);
    }
  }

  /** Cancellation is cooperative: once seen, every later row is skipped and the cluster is left as it stands. */
  lemma {:induction false} StoppedStaysPut(own: Ownership, rows: seq<ComponentState>, world: nat -> Attempt,
    cluster: set<ReleaseRef>, k: nat)
    requires k <= |rows| && Tear(own, rows[..k], world, cluster).stopped
    ensures var t, u := Tear(own, rows, world, cluster), Tear(own, rows[..k], world, cluster);
            && t.stopped && t.cluster == u.cluster && |t.outcomes| == |rows| && |u.outcomes| == k
            && forall i :: k <= i < |rows| ==> t.outcomes[i].skip == Canceled
  {
    hide Unprovable, Purged;
    OneOutcomeEach(own, rows, world, cluster);
    OneOutcomeEach(own, rows[..k], world, cluster);
    if k == |rows| {
      assert rows[..k] == rows;
    } else {
      var n := |rows| - 1;
      assert rows[..n][..k] == rows[..k];
      StoppedStaysPut(own, rows[..n], world, cluster, k);
    }
  }

  /** Row i's uninstall was tried, and went through or removed its release, r, all the same. */
  predicate Took(outcomes: seq<ReleaseOutcome>, rows: seq<ComponentState>, world: nat -> Attempt, i: int, r: ReleaseRef)
    requires 0 <= i < |rows| == |outcomes|
  {
    && outcomes[i].skip == NotSkipped && ReleaseRef(rows[i].name, rows[i].namespace) == r
    && (world(i).err == "" || world(i).gone)
  }

  /** Exactly what a row's uninstall took has left the cluster. */
  lemma {:induction false} TearRemovesExactly(own: Ownership, rows: seq<ComponentState>, world: nat -> Attempt,
    cluster: set<ReleaseRef>, r: ReleaseRef)
    ensures var t := Tear(own, rows, world, cluster);
            && |t.outcomes| == |rows|
            && (r in t.cluster <==>
                  r in cluster && forall i :: 0 <= i < |rows| ==> !Took(t.outcomes, rows, world, i, r))
  {
    OneOutcomeEach(own, rows, world, cluster);
    if rows != [] {
      hide SkipFor, Purged;
      var n := |rows| - 1;
      var before, t := Tear(own, rows[..n], world, cluster), Tear(own, rows, world, cluster);
      TearRemovesExactly(own, rows[..n], world, cluster, r);
      OneMoreRow(own, rows[n], world(n), before);
      forall i | 0 <= i < n
        ensures Took(t.outcomes, rows, world, i, r) <==> Took(before.outcomes, rows[..n], world, i, r)
      {
        assert t.outcomes[i] == before.outcomes[i];
      }
      assert r in t.cluster <==> r in before.cluster && !Took(t.outcomes, rows, world, n, r);
    }
  }

  lemma OneMoreRow(own: Ownership, c: ComponentState, a: Attempt, t: Torn)
    ensures var u := TearRow(own, c, a, t);
            && |u.outcomes| == |t.outcomes| + 1 && u.outcomes[..|t.outcomes|] == t.outcomes
            && u.cluster == if u.outcomes[|t.outcomes|].skip == NotSkipped && (a.err == "" || a.gone)
                            then t.cluster - {RefTo(c)} else t.cluster
  {
    hide SkipFor, Purged;
  }

  /** With nothing cutting it short, kai-scheduler's leftovers are all tried, in order, each reported as it went. */
  lemma LeftoversTried(answers: nat -> Command)
    requires forall j :: 0 <= j < 4 ==> !answers(j).cut
    ensures var tried := Purged(TargetsOf("kai-scheduler"), answers);
            && |tried| == 4 && (forall j :: 0 <= j < 4 ==> tried[j].err == answers(j).err)
            && tried[0].target.Resource() == "schedulingshard.kai.scheduler/default"
            && tried[1].target.Resource() == "queue.scheduling.run.ai/default-queue"
            && tried[2].target.Resource() == "queue.scheduling.run.ai/default-parent-queue"
            && tried[3].target.Resource() == "config.kai.scheduler/kai-config"
            && tried[3].target.Namespace() == "kai-scheduler"
            && (forall j :: 0 <= j < 3 ==> tried[j].target.Namespace() == "")
  {
    assert Reach(4, answers, 0) == 4;
  }

  /** The releases rows name: what could be uninstalled at all. */
  function Named(rows: seq<ComponentState>): set<ReleaseRef> { set c | c in rows && c.namespace != "" :: RefTo(c) }

  lemma NoEvidenceProvesAll(rows: seq<ComponentState>, r: ReleaseRef)
    ensures Provable(NO_OWNERSHIP, rows, r) <==> r in Named(rows)
  {
    if HasRow(rows, r.name, r.namespace) {
      var i :| 0 <= i < |rows| && rows[i].name == r.name && rows[i].namespace == r.namespace;
      assert RefTo(rows[i]) == r;
    }
    if r in Named(rows) {
      var c :| c in rows && c.namespace != "" && RefTo(c) == r;
      var i :| 0 <= i < |rows| && rows[i] == c;
      assert rows[i].name == r.name;
    }
  }

  /**
   * No ownership evidence is not a safe default. With nothing recorded, every row with a namespace is
   * uninstalled unless a cancellation came first, and a clean teardown leaves none of them.
   */
  lemma NoEvidenceStillRemoves(rows: seq<ComponentState>, world: nat -> Attempt, cluster: set<ReleaseRef>)
    ensures var t := Tear(NO_OWNERSHIP, rows, world, cluster);
            && |t.outcomes| == |rows|
            && (forall i :: 0 <= i < |rows| ==>
                  (t.outcomes[i].skip == NotSkipped <==>
                     rows[i].namespace != "" && !Tear(NO_OWNERSHIP, rows[..i], world, cluster).stopped))
            && (CleanTear(t) ==> t.cluster == cluster - Named(rows))
  {
    var t := Tear(NO_OWNERSHIP, rows, world, cluster);
    OneOutcomeEach(NO_OWNERSHIP, rows, world, cluster);
    forall i | 0 <= i < |rows|
      ensures t.outcomes[i].skip == NotSkipped <==>
                rows[i].namespace != "" && !Tear(NO_OWNERSHIP, rows[..i], world, cluster).stopped
    {
      OutcomeOfRow(NO_OWNERSHIP, rows, world, cluster, i);
    }
    if CleanTear(t) {
      CleanRemovesAllProvable(NO_OWNERSHIP, rows, world, cluster);
      RemovesOnlyProvable(NO_OWNERSHIP, rows, world, cluster);
      forall r ensures Provable(NO_OWNERSHIP, rows, r) <==> r in Named(rows) { NoEvidenceProvesAll(rows, r); }
    }
  }

  // ---- the inventory ----

  function ReleaseItem(o: ReleaseOutcome): ResidueItem {
    ResidueItem(KindRelease, o.name, o.namespace, o.skip == NotSkipped && o.err == "", o.skip, false, o.err)
  }

  function ObjectItem(o: ObjectOutcome): ResidueItem {
    ResidueItem(KindObject, o.target.Resource(), o.target.Namespace(), o.err == "", NotSkipped, false, o.err)
  }

  function ObjectItems(objects: seq<ObjectOutcome>): seq<ResidueItem> {
    seq(|objects|, i requires 0 <= i < |objects| => ObjectItem(objects[i]))
  }

  function Inventory(outcomes: seq<ReleaseOutcome>): seq<ResidueItem> {
    if outcomes == [] then []
    else
      var o := outcomes[|outcomes| - 1];
      Inventory(outcomes[..|outcomes| - 1]) + [ReleaseItem(o)] + ObjectItems(o.objects)
  }

  /** Every release and every object tried is listed, and called removed exactly if it was, without an error. */
  lemma {:induction false} InventoryTells(outcomes: seq<ReleaseOutcome>, i: nat)
    requires i < |outcomes|
    ensures var o := outcomes[i];
            ResidueItem(KindRelease, o.name, o.namespace, o.skip == NotSkipped && o.err == "", o.skip, false, o.err)
            in Inventory(outcomes)
    ensures forall j :: 0 <= j < |outcomes[i].objects| ==>
              var x := outcomes[i].objects[j];
              ResidueItem(KindObject, x.target.Resource(), x.target.Namespace(), x.err == "", NotSkipped, false, x.err)
              in Inventory(outcomes)
  {
    var n := |outcomes| - 1;
    var o := outcomes[n];
    var before := Inventory(outcomes[..n]);
    assert forall x :: x in before ==> x in Inventory(outcomes);
    if i < n {
      InventoryTells(outcomes[..n], i);
    } else {
      var all := Inventory(outcomes);
      assert all[|before|] == ReleaseItem(o);
      forall j | 0 <= j < |o.objects| ensures ObjectItem(o.objects[j]) in all {
        assert all[|before| + 1 + j] == ObjectItems(o.objects)[j];
      }
    }
  }

  predicate Names(items: seq<ResidueItem>, ns: string) {
    exists i :: 0 <= i < |items| && items[i].kind == KindNamespace && items[i].name == ns
  }

  /**
   * Every namespace the run knows of is reported once and none is removed: those of the snapshot in
   * order, then the validator's and the agent's unless the list already names them.
   */
  method NamespaceResidue(own: Ownership, agent: AgentNamespace, validation: string) returns (out: seq<ResidueItem>)
    ensures |out| >= |own.namespaces|
    ensures forall i :: 0 <= i < |own.namespaces| ==>
              var ns := own.namespaces[i];
              out[i] == ResidueItem(KindNamespace, ns.name, "", false,
                if ns.existed then ExistedBefore else CreatedByRun, !ns.existed, "")
    ensures forall i :: 0 <= i < |out| ==>
            out[i].kind == KindNamespace && !out[i].removed && out[i].err == "" && out[i].skip != NotSkipped
    ensures forall ns :: Names(out, ns) <==>
              Recorded(own, ns) || (ns == validation && validation != "") ||
                (ns == agent.name && agent.created && agent.name != "")
    ensures forall i, j :: |own.namespaces| <= j < |out| && 0 <= i < j ==> out[i].name != out[j].name
  {
    out := [];
    for i := 0 to |own.namespaces|
      invariant |out| == i
      invariant forall j :: 0 <= j < i ==>
        var ns := own.namespaces[j];
        out[j] == ResidueItem(KindNamespace, ns.name, "", false, if ns.existed then ExistedBefore else CreatedByRun,
          !ns.existed, "")
    {
      var ns := own.namespaces[i];
      var note := CreatedByRun;
      if ns.existed { note := ExistedBefore; }
      out := out + [ResidueItem(KindNamespace, ns.name, "", false, note, !ns.existed, "")];
    }
    forall ns ensures Names(out, ns) <==> Recorded(own, ns) {
      if Recorded(own, ns) {
        var i :| 0 <= i < |own.namespaces| && own.namespaces[i].name == ns;
        assert out[i].name == ns;
      }
    }
    if validation != "" && !Names(out, validation) {
      out := Report(out, validation, CreatedByValidator);
    }
    if agent.created && agent.name != "" && !Names(out, agent.name) {
      out := Report(out, agent.name, CreatedForAgent);
    }
  }

  method Report(items: seq<ResidueItem>, ns: string, note: Skip) returns (out: seq<ResidueItem>)
    ensures out == items + [ResidueItem(KindNamespace, ns, "", false, note, true, "")]
    ensures forall x :: Names(out, x) <==> Names(items, x) || x == ns
  {
    out := items + [ResidueItem(KindNamespace, ns, "", false, note, true, "")];
    assert out[|items|].name == ns;
    forall x | Names(items, x) ensures Names(out, x) {
      var i :| 0 <= i < |items| && items[i].kind == KindNamespace && items[i].name == x;
      assert out[i] == items[i];
    }
  }
}
