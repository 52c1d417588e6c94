/**
 * The observer over whole runs: deliveries from any informer, stale ones included, interleaved with
 * changes of scope in any order. Nothing is left stranded for a namespace nobody watches, and a pod
 * that recovers leaves nothing unresolved behind it.
 */
module ObserverRuns {
  import opened Wrappers
  import opened ObserverSpec

  /**
   * open are the conditions published since their namespace was last started and not resolved
   * since; forgotten those of them no longer tracked, because their Event object expired or their
   * pod was deleted while they stood recorded but not narrated; attribution counts the runs
   * restarts have been attributed to, under says which one each live namespace was started for, and
   * torn which namespaces were torn down under which.
   */
  datatype World = World(o: Obs, open: set<(Key, string)>, forgotten: set<(Key, string)>,
                         attribution: nat, under: map<string, nat>, torn: set<(nat, string)>)

  const NEW_WORLD := World(NEW_OBSERVER, {}, {}, 0, map[], {})

  datatype Step =
    | PodAdded(pod: Pod, initial: bool)
    | PodUpdated(pod: Pod)
    | PodDeleted(pod: Pod)
    | EventAdded(ev: KubeEvent, initial: bool)
    | EventUpdated(ev: KubeEvent)
    | EventPulled(key: Key)
    | EventExpired(ev: KubeEvent)
    | Rescoped(sc: Scope, after: Obs)
    | ShutDown

  function Publish(w: World, d: (Obs, Out)): World { w.(o := d.0, open := (w.open + d.1.arose) - d.1.resolved) }

  /** A namespace that kept its informers. */
  predicate Kept(before: Obs, after: Obs, ns: string) {
    ns in before.entries && ns in after.entries && before.entries[ns] == after.entries[ns]
  }

  function KeptOf(w: World, after: Obs, cs: set<(Key, string)>): set<(Key, string)> {
    set c | c in cs && Kept(w.o, after, c.0.namespace)
  }

  /** A change of scope starts the books of every namespace it starts or stops afresh. */
  function Rescope(w: World, after: Obs): World {
    var attribution := if after.tornRun != w.o.tornRun then w.attribution + 1 else w.attribution;
    var under := map ns | ns in after.entries :: if Kept(w.o, after, ns) &&
      ns in w.under then w.under[ns] else attribution;
    var torn := set ns | ns in w.o.entries && ns in w.under && !Kept(w.o, after, ns) :: (w.under[ns], ns);
    World(after, KeptOf(w, after, w.open), KeptOf(w, after, w.forgotten), attribution, under, w.torn + torn)
  }

  function Delete(w: World, pod: Pod): World {
    var w1 := Publish(w, DeletePod(w.o, pod));
    w1.(forgotten := w.forgotten + set c | c in w1.open && c.0 == PodKey(pod))
  }

  function Take(w: World, st: Step): World {
    match st
    case PodAdded(pod, initial) => Publish(w, AddPod(w.o, pod, initial))
    case PodUpdated(pod) => Publish(w, ChangePod(w.o, pod))
    case PodDeleted(pod) => Delete(w, pod)
    case EventAdded(ev, initial) => Publish(w, AddEvent(w.o, ev, initial))
    case EventUpdated(ev) => Publish(w, ChangeEvent(w.o, ev))
    case EventPulled(key) => Publish(w, PullEvent(w.o, key))
    case EventExpired(ev) => w.(o := ExpireEvent(w.o, ev), forgotten := w.forgotten + {(InvolvedKey(ev), ev.reason)})
    case Rescoped(sc, after) => if Reconciled(w.o, after, sc) then Rescope(w, after) else w
    case ShutDown => Rescope(w, StopNamespaces(w.o, w.o.entries.Keys).(runId := ""))
  }

  function Taken(w: World, steps: seq<Step>): World {
    if steps == [] then w else Take(Taken(w, steps[..|steps| - 1]), steps[|steps| - 1])
  }

  // ---- invariants ----

  /** Every tracked entry is for a namespace being watched; the pod map holds pods. */
  predicate NoStray(o: Obs) {
    && (forall k :: k in o.pods ==> k.namespace in o.entries && k.kind == POD)
    && (forall k :: k in o.events ==> k.namespace in o.entries)
  }

  predicate Tracked(o: Obs, c: (Key, string)) { c.1 in At(o.pods, c.0) || c.1 in At(o.events, c.0) }

  /** What was published and not resolved is tracked, unless it was forgotten. */
  predicate Accounted(w: World) {
    forall c :: c in w.open ==> c.0.namespace in w.o.entries && (Tracked(w.o, c) || c in w.forgotten)
  }

  /** Live namespaces are the attributed run's, and the teardown marks are that run's alone. */
  ghost predicate Attributed(w: World) {
    && w.under.Keys == w.o.entries.Keys
    && (forall ns :: ns in w.o.entries ==> w.under[ns] == w.attribution && w.o.entries[ns] < w.o.started)
    && (w.o.entries.Keys != {} ==> w.o.runId == w.o.tornRun)
    && (forall t :: t in w.torn ==> t.0 <= w.attribution)
    && (forall ns :: ns in w.o.tornDown <==> (w.attribution, ns) in w.torn)
  }

  ghost predicate Good(w: World) { NoStray(w.o) && Accounted(w) && Attributed(w) }

  // ---- deliveries ----

  /** A delivery leaves scope alone, tracks only live namespaces, and forgets nothing it does not resolve. */
  ghost predicate Delivers(o: Obs, d: (Obs, Out)) {
    && d.0 == o.(pods := d.0.pods, events := d.0.events)
    && (forall k :: k in d.0.pods ==> k in o.pods || (k.namespace in o.entries && k.kind == POD))
    && (forall k :: k in d.0.events ==> k in o.events || k.namespace in o.entries)
    && (forall c :: c in d.1.arose ==> c.0.namespace in o.entries && Tracked(d.0, c))
    && (forall c :: Tracked(o, c) && !Tracked(d.0, c) ==> c in d.1.resolved)
  }

  lemma DeliveryKeeps(w: World, d: (Obs, Out))
    requires Good(w) && Delivers(w.o, d)
    ensures Good(Publish(w, d))
  {
  }

  lemma ChangePodDelivers(o: Obs, pod: Pod)
    ensures Delivers(o, ChangePod(o, pod))
  {
    var d := ChangePod(o, pod);
    if Live(o, pod.namespace) && PodTrouble(pod).None? {
      var gone := {PodKey(pod)} + ControllerKeys(pod);
      forall c | Tracked(o, c) && !Tracked(d.0, c) ensures c in d.1.resolved {
        assert c.0 in gone;
      }
    }
  }

  lemma EventsDeliver(o: Obs, ev: KubeEvent, key: Key)
    ensures Delivers(o, ChangeEvent(o, ev)) && Delivers(o, PullEvent(o, key))
  {
    forall c | Tracked(o, c) && !Tracked(PullEvent(o, key).0, c) ensures c in PullEvent(o, key).1.resolved {
      assert c.0 == key;
    }
  }

  lemma SeedsDeliver(o: Obs, pod: Pod, ev: KubeEvent)
    ensures Delivers(o, (SeedPod(o, pod), SILENT)) && Delivers(o, (SeedEvent(o, ev), SILENT))
  {
  }

  lemma DeleteKeeps(w: World, pod: Pod)
    requires Good(w)
    ensures Good(Delete(w, pod))
  {
  }

  lemma ExpiryKeeps(w: World, ev: KubeEvent)
    requires Good(w)
    ensures Good(Take(w, EventExpired(ev)))
  {
  }

  // ---- scope ----

  /** A teardown leaves nothing tracked for what it stopped. */
  lemma StopKeeps(o: Obs, gone: set<string>)
    requires NoStray(o)
    ensures NoStray(StopNamespaces(o, gone))
    ensures forall c: (Key, string) :: c.0.namespace !in gone * o.entries.Keys ==>
            (Tracked(StopNamespaces(o, gone), c) <==> Tracked(o, c))
  {
  }

  lemma SettledKeeps(o: Obs, sc: Scope)
    requires NoStray(o)
    ensures var t := Settled(o, sc);
            && NoStray(t) && t.started == o.started && t.runId == (if NothingToWatch(sc) then "" else sc.runId)
            && t.tornRun == (if NothingToWatch(sc) then o.tornRun else sc.runId)
            && (forall ns :: ns in t.entries ==> ns in o.entries && t.entries[ns] == o.entries[ns])
            && (forall c: (Key, string) :: c.0.namespace in t.entries ==> (Tracked(t, c) <==> Tracked(o, c)))
  {
    if NothingToWatch(sc) {
      StopKeeps(o, o.entries.Keys);
    } else {
      StopKeeps(o, o.entries.Keys);
      var o1 := if o.runId != sc.runId then StopNamespaces(o, o.entries.Keys).(runId := sc.runId) else o;
      var o2 := if sc.runId != o1.tornRun then o1.(tornDown := {}, tornRun := sc.runId) else o1;
      StopKeeps(o2, o2.entries.Keys - sc.namespaces);
    }
  }

  /** Where the teardown marks come from, in reconcile: torn down under the run the marks are now for. */
  lemma SettledMarks(o: Obs, sc: Scope)
    requires o.entries.Keys != {} ==> o.runId == o.tornRun
    ensures var t := Settled(o, sc);
            t.tornDown == if t.tornRun == o.tornRun then o.tornDown + (o.entries.Keys - t.entries.Keys) else {}
  {
  }

  lemma StartKeepsTracked(a: Obs, b: Obs, wanted: set<string>)
    requires NoStray(a) && StartsMissing(a, b, wanted)
    ensures NoStray(b) && forall c :: Tracked(b, c) <==> Tracked(a, c)
  {
  }

  lemma RescopeKeeps(w: World, sc: Scope, after: Obs)
    requires Good(w) && Reconciled(w.o, after, sc)
    ensures Good(Rescope(w, after))
  {
    var t := Settled(w.o, sc);
    SettledKeeps(w.o, sc);
    SettledMarks(w.o, sc);
    StartKeepsTracked(t, after, if NothingToWatch(sc) then {} else sc.namespaces);
    var w' := Rescope(w, after);
    forall ns | ns in after.entries ensures Kept(w.o, after, ns) <==> ns in t.entries {
      if ns in w.o.entries && ns !in t.entries { assert w.o.entries[ns] < w.o.started <= after.entries[ns]; }
    }
    RescopeAttributes(w, sc, after);
  }

  lemma RescopeAttributes(w: World, sc: Scope, after: Obs)
    requires Attributed(w) && Reconciled(w.o, after, sc)
    requires forall ns :: ns in after.entries ==> (Kept(w.o, after, ns) <==> ns in Settled(w.o, sc).entries)
    ensures Attributed(Rescope(w, after))
  {
    SettledMarks(w.o, sc);
    SwitchedSettles(w.o, sc);
    RescopeMarks(w, Settled(w.o, sc), after);
    hide Settled;
  }

  /** The marks after a change of scope: those of the run they were for, with what was just torn down. */
  lemma RescopeMarks(w: World, t: Obs, after: Obs)
    requires Attributed(w) && after.tornRun == t.tornRun && after.tornDown == t.tornDown
    requires forall ns :: ns in t.entries ==> ns in w.o.entries && ns in after.entries
    requires forall ns :: ns in after.entries ==> (Kept(w.o, after, ns) <==> ns in t.entries)
    requires t.tornDown == if t.tornRun == w.o.tornRun then w.o.tornDown + (w.o.entries.Keys - t.entries.Keys) else {}
    ensures var w' := Rescope(w, after);
            (forall ns :: ns in after.tornDown <==> (w'.attribution, ns) in w'.torn) && forall m :: m in w'.torn ==>
              m.0 <= w'.attribution
  {
    var w' := Rescope(w, after);
    forall ns ensures ns in after.tornDown <==> (w'.attribution, ns) in w'.torn {
      assert ns in w.o.entries ==> (Kept(w.o, after, ns) <==> ns in t.entries);
    }
  }

  /** A run the marks are not for finds nothing running. */
  lemma SwitchedSettles(o: Obs, sc: Scope)
    requires o.entries.Keys != {} ==> o.runId == o.tornRun
    ensures var t := Settled(o, sc);
            && (t.tornRun != o.tornRun ==> t.entries.Keys == {})
            && t.runId == (if NothingToWatch(sc) then "" else sc.runId) && t.started == o.started
            && (!NothingToWatch(sc) ==> t.tornRun == sc.runId) && (NothingToWatch(sc) ==> t.entries.Keys == {})
            && (forall ns :: ns in t.entries ==> ns in o.entries && t.entries[ns] == o.entries[ns])
  {
    if o.runId != sc.runId { assert StopNamespaces(o, o.entries.Keys).entries.Keys == {}; }
  }

  lemma ShutDownKeeps(w: World)
    requires Good(w)
    ensures Good(Take(w, ShutDown))
  {
    StopKeeps(w.o, w.o.entries.Keys);
  }

  lemma TakeKeeps(w: World, st: Step)
    requires Good(w)
    ensures Good(Take(w, st))
  {
    match st
    case PodAdded(pod, initial) =>
      ChangePodDelivers(w.o, pod);
      SeedsDeliver(w.o, pod, KubeEvent("", false, Owner("", "", ""), "", ""));
      DeliveryKeeps(w, AddPod(w.o, pod, initial));
    case PodUpdated(pod) =>
      ChangePodDelivers(w.o, pod);
      DeliveryKeeps(w, ChangePod(w.o, pod));
    case PodDeleted(pod) => DeleteKeeps(w, pod);
    case EventAdded(ev, initial) =>
      EventsDeliver(w.o, ev, InvolvedKey(ev));
      SeedsDeliver(w.o, Pod("", "", "", [], [], [], None), ev);
      DeliveryKeeps(w, AddEvent(w.o, ev, initial));
    case EventUpdated(ev) =>
      EventsDeliver(w.o, ev, InvolvedKey(ev));
      DeliveryKeeps(w, ChangeEvent(w.o, ev));
    case EventPulled(key) =>
      EventsDeliver(w.o, KubeEvent("", false, Owner("", "", ""), "", ""), key);
      DeliveryKeeps(w, PullEvent(w.o, key));
    case EventExpired(ev) => ExpiryKeeps(w, ev);
    case Rescoped(sc, after) => if Reconciled(w.o, after, sc) { RescopeKeeps(w, sc, after); }
    case ShutDown => ShutDownKeeps(w);
  }

  lemma {:induction false} AlwaysGood(steps: seq<Step>)
    ensures Good(Taken(NEW_WORLD, steps))
  {
    if steps == [] {
    } else {
      AlwaysGood(steps[..|steps| - 1]);
      TakeKeeps(Taken(NEW_WORLD, steps[..|steps| - 1]), steps[|steps| - 1]);
    }
  }

  // ---- the main results ----

  /**
   * No stranded state: in every interleaving of teardown, restart and stale deliveries, every
   * tracked pod and Event key names a namespace being watched.
   */
  lemma NothingStranded(steps: seq<Step>)
    ensures var o := Taken(NEW_WORLD, steps).o;
            && (forall k :: k in o.pods ==> k.namespace in o.entries)
            && (forall k :: k in o.events ==> k.namespace in o.entries)
  {
    AlwaysGood(steps);
  }

  /** What this delivery would have to say no to: an Event expiring, or a snapshot of something already narrated. */
  predicate Orderly(w: World, st: Step) {
    match st
    case EventExpired(_) => false
    case PodAdded(pod, initial) =>
      initial && !IsRestart(w.o, pod.namespace) && PodTrouble(pod).Some? &&
        PodTrouble(pod).value.reason in At(w.o.pods, PodKey(pod)) ==>
        !w.o.pods[PodKey(pod)][PodTrouble(pod).value.reason].narrated
    case EventAdded(ev, initial) =>
      initial && !IsRestart(w.o, ev.namespace) && ev.reason in At(w.o.events, InvolvedKey(ev)) ==>
        !w.o.events[InvolvedKey(ev)][ev.reason].narrated
    case _ => true
  }

  predicate AllOrderly(steps: seq<Step>) {
    steps == [] || (AllOrderly(steps[..|steps| - 1]) &&
      Orderly(Taken(NEW_WORLD, steps[..|steps| - 1]), steps[|steps| - 1]))
  }

  /** Everything open stands recorded as narrated, and nothing was forgotten. */
  predicate Told(w: World) {
    && w.forgotten == {}
    && forall c :: c in w.open ==>
         (c.1 in At(w.o.pods, c.0) && w.o.pods[c.0][c.1].narrated) ||
           (c.1 in At(w.o.events, c.0) && w.o.events[c.0][c.1].narrated)
  }

  lemma RescopeTells(w: World, sc: Scope, after: Obs)
    requires Good(w) && Told(w) && Reconciled(w.o, after, sc)
    ensures Told(Rescope(w, after))
  {
    var t := Settled(w.o, sc);
    SettledSurvivors(w.o, sc);
    forall c | c in Rescope(w, after).open
      ensures At(after.pods, c.0) == At(w.o.pods, c.0) && At(after.events, c.0) == At(w.o.events, c.0)
    {
      assert c.0.namespace in t.entries;
    }
  }

  lemma SettledSurvivors(o: Obs, sc: Scope)
    ensures forall k: Key :: k.namespace in Settled(o, sc).entries ==>
              At(Settled(o, sc).pods, k) == At(o.pods, k) && At(Settled(o, sc).events, k) == At(o.events, k)
    ensures Settled(o, sc).started == o.started
  {
  }

  lemma ChangePodTells(w: World, pod: Pod)
    requires Told(w)
    ensures Told(Publish(w, ChangePod(w.o, pod)))
  {
  }

  lemma SeedTells(w: World, st: Step)
    requires Told(w) && Orderly(w, st)
    requires (st.PodAdded? && st.initial && !IsRestart(w.o, st.pod.namespace)) ||
             (st.EventAdded? && st.initial && !IsRestart(w.o, st.ev.namespace))
    ensures Told(Take(w, st))
  {
  }

  lemma ChangeEventTells(w: World, ev: KubeEvent)
    requires Told(w)
    ensures Told(Publish(w, ChangeEvent(w.o, ev)))
  {
  }

  lemma RemovalTells(w: World, pod: Pod, key: Key)
    requires Told(w)
    ensures Told(Delete(w, pod)) && Told(Publish(w, PullEvent(w.o, key)))
  {
  }

  lemma TakeTells(w: World, st: Step)
    requires Good(w) && Told(w) && Orderly(w, st)
    ensures Told(Take(w, st))
  {
    match st
    case PodAdded(pod, initial) =>
      if initial && !IsRestart(w.o, pod.namespace) { SeedTells(w, st); } else { ChangePodTells(w, pod); }
    case PodUpdated(pod) => ChangePodTells(w, pod);
    case EventAdded(ev, initial) =>
      if initial && !IsRestart(w.o, ev.namespace) { SeedTells(w, st); } else { ChangeEventTells(w, ev); }
    case EventUpdated(ev) => ChangeEventTells(w, ev);
    case EventPulled(key) => RemovalTells(w, Pod("", "", "", [], [], [], None), key);
    case PodDeleted(pod) => RemovalTells(w, pod, PodKey(pod));
    case Rescoped(sc, after) => if Reconciled(w.o, after, sc) { RescopeTells(w, sc, after); }
    case ShutDown =>
  }

  /**
   * Without Event expiry, and without a snapshot landing on something already narrated, what is
   * published and unresolved for the live namespaces is always a subset of what is tracked.
   */
  lemma {:induction false} OpenIsTracked(steps: seq<Step>)
    requires AllOrderly(steps)
    ensures Told(Taken(NEW_WORLD, steps))
    ensures forall c :: c in Taken(NEW_WORLD, steps).open ==> Tracked(Taken(NEW_WORLD, steps).o, c)
  {
    if steps == [] {
    } else {
      OpenIsTracked(steps[..|steps| - 1]);
      AlwaysGood(steps[..|steps| - 1]);
      TakeTells(Taken(NEW_WORLD, steps[..|steps| - 1]), steps[|steps| - 1]);
    }
  }

  lemma HealthyResolves(w: World, pod: Pod, c: (Key, string))
    requires Good(w) && PodTrouble(pod).None? && Live(w.o, pod.namespace)
    requires pod.controller.Some? ==> pod.controller.value.kind != POD
    requires c in Take(w, PodUpdated(pod)).open && (c.0 == PodKey(pod) || c.0 in ControllerKeys(pod))
    ensures c in w.forgotten
  {
    assert c in w.open;
  }

  /**
   * A healthy delivery for a live pod leaves nothing unresolved for that pod, whichever informer
   * narrated it, nor for Warnings about its controller; the only exceptions were forgotten before,
   * and in orderly runs there are none.
   */
  lemma HealthyClearsAll(steps: seq<Step>, pod: Pod, c: (Key, string))
    requires PodTrouble(pod).None? && Live(Taken(NEW_WORLD, steps).o, pod.namespace)
    requires pod.controller.Some? ==> pod.controller.value.kind != POD
    requires c in Take(Taken(NEW_WORLD, steps), PodUpdated(pod)).open
    ensures c.0 == PodKey(pod) || c.0 in ControllerKeys(pod) ==>
            c in Taken(NEW_WORLD, steps).forgotten && !AllOrderly(steps)
  {
    var w := Taken(NEW_WORLD, steps);
    AlwaysGood(steps);
    if AllOrderly(steps) { OpenIsTracked(steps); }
    if c.0 == PodKey(pod) || c.0 in ControllerKeys(pod) { HealthyResolves(w, pod, c); }
  }

  /** Deleting a pod forgets exactly what was recorded for it and never narrated. */
  lemma DeletionForgetsUnnarrated(w: World, pod: Pod, r: string)
    requires Good(w) && (PodKey(pod), r) in w.open
    ensures (PodKey(pod), r) in Take(w, PodDeleted(pod)).open <==>
              !(r in At(w.o.pods, PodKey(pod)) && w.o.pods[PodKey(pod)][r].narrated)
              && !(r in At(w.o.events, PodKey(pod)) && w.o.events[PodKey(pod)][r].narrated)
  {
  }

  /**
   * And that can happen: a snapshot delivered late, over a condition already narrated, takes its
   * narrated mark away, so the deletion that follows leaves it on the row for good.
   */
  lemma LateSnapshotStrands(w: World, pod: Pod)
    requires PodTrouble(pod).Some? && Live(w.o, pod.namespace) && !IsRestart(w.o, pod.namespace)
    requires (PodKey(pod), PodTrouble(pod).value.reason) in w.open && At(w.o.events, PodKey(pod)) == map[]
    ensures var w' := Take(Take(w, PodAdded(pod, true)), PodDeleted(pod));
            var c := (PodKey(pod), PodTrouble(pod).value.reason);
            c in w'.open && !Tracked(w'.o, c)
  {
  }

  /** Scope one namespace to one run, as the first reconcile finds it. */
  function FirstScope(ns: string): Scope { Scope("run", {ns}, false) }

  function FirstStarted(ns: string): Obs {
    NEW_OBSERVER.(entries := map[ns := 0], started := 1, runId := "run", tornRun := "run")
  }

  /** From the start, for every pod in trouble: watched, narrated, listed late, deleted. */
  function LateSnapshotRun(pod: Pod): seq<Step> {
    [Rescoped(FirstScope(pod.namespace), FirstStarted(pod.namespace)), PodUpdated(pod), PodAdded(pod, true),
      PodDeleted(pod)]
  }

  lemma TakenFour(w: World, st: seq<Step>)
    requires |st| == 4
    ensures Taken(w, st) == Take(Take(Take(Take(w, st[0]), st[1]), st[2]), st[3])
  {
    assert st[..3][..2] == st[..2] && st[..2][..1] == st[..1] && st[..1][..0] == [];
    assert Taken(w, st[..1]) == Take(w, st[0]);
    assert Taken(w, st[..2]) == Take(Taken(w, st[..1]), st[1]);
    assert Taken(w, st[..3]) == Take(Taken(w, st[..2]), st[2]);
  }

  lemma FirstReconciled(ns: string)
    ensures Reconciled(NEW_OBSERVER, FirstStarted(ns), FirstScope(ns))
  {
    assert StopNamespaces(NEW_OBSERVER,
      {}) == NEW_OBSERVER by { assert NEW_OBSERVER.entries - {} == NEW_OBSERVER.entries; }
    assert NEW_OBSERVER.entries.Keys == {} && NEW_OBSERVER.entries.Keys - {ns} == {};
  }

  lemma FirstWatches(ns: string)
    ensures var w := Take(NEW_WORLD, Rescoped(FirstScope(ns), FirstStarted(ns)));
            w.o == FirstStarted(ns) && w.open == {}
  {
    FirstReconciled(ns);
  }

  lemma FirstNarrates(w: World, pod: Pod)
    requires w.o == FirstStarted(pod.namespace) && w.open == {} && PodTrouble(pod).Some?
    ensures var w' := Take(w, PodUpdated(pod));
            && Live(w'.o, pod.namespace) && !IsRestart(w'.o, pod.namespace)
            && (PodKey(pod), PodTrouble(pod).value.reason) in w'.open && At(w'.o.events, PodKey(pod)) == map[]
  {
  }

  /** So the promise does break, from the very start, for every pod in trouble. */
  lemma LateSnapshotBreaks(pod: Pod)
    requires PodTrouble(pod).Some?
    ensures Stranded(Taken(NEW_WORLD, LateSnapshotRun(pod)), (PodKey(pod), PodTrouble(pod).value.reason))
  {
    hide Take, Taken, PodTrouble, FirstStarted, FirstScope;
    var st := LateSnapshotRun(pod);
    TakenFour(NEW_WORLD, st);
    FirstWatches(pod.namespace);
    FirstNarrates(Take(NEW_WORLD, st[0]), pod);
    LateSnapshotStrands(Take(Take(NEW_WORLD, st[0]), st[1]), pod);
  }

  // ---- exactly when something is stranded ----

  /** Published, unresolved, and tracked nowhere: nothing will ever take it back. */
  predicate Stranded(w: World, c: (Key, string)) { c in w.open && !Tracked(w.o, c) }

  /**
   * The two deliveries that strand c: its Event object expires with the pod map not holding it too,
   * or its pod is deleted with neither map having it as narrated.
   */
  predicate Strands(w: World, st: Step, c: (Key, string)) {
    && c in w.open && Tracked(w.o, c)
    && match st
       case EventExpired(ev) => c == (InvolvedKey(ev), ev.reason) && c.1 !in At(w.o.pods, c.0)
       case PodDeleted(pod) => c.0 == PodKey(pod) && !Narrated(w.o, c)
       case _ => false
  }

  predicate Narrated(o: Obs, c: (Key, string)) {
    (c.1 in At(o.pods, c.0) && o.pods[c.0][c.1].narrated) || (c.1 in At(o.events, c.0) && o.events[c.0][c.1].narrated)
  }

  lemma DeliveryStrandsNone(w: World, d: (Obs, Out), c: (Key, string))
    requires Delivers(w.o, d) && Stranded(Publish(w, d), c)
    ensures Stranded(w, c)
  {
  }

  lemma RescopeStrandsNone(w: World, sc: Scope, after: Obs, c: (Key, string))
    requires Good(w) && Reconciled(w.o, after, sc) && Stranded(Rescope(w, after), c)
    ensures Stranded(w, c)
  {
    SettledKeeps(w.o, sc);
    StartKeepsTracked(Settled(w.o, sc), after, if NothingToWatch(sc) then {} else sc.namespaces);
  }

  lemma DeletionStrands(w: World, pod: Pod, c: (Key, string))
    requires Good(w) && !Stranded(w, c)
    ensures Stranded(Take(w, PodDeleted(pod)), c) <==> Strands(w, PodDeleted(pod), c)
  {
    hide Attributed;
  }

  lemma ExpiryStrands(w: World, ev: KubeEvent, c: (Key, string))
    requires Good(w) && !Stranded(w, c)
    ensures Stranded(Take(w, EventExpired(ev)), c) <==> Strands(w, EventExpired(ev), c)
  {
    hide Attributed;
  }

  /** One delivery strands what was not stranded exactly in those two cases. */
  lemma StrandsExactly(w: World, st: Step, c: (Key, string))
    requires Good(w) && !Stranded(w, c)
    ensures Stranded(Take(w, st), c) <==> Strands(w, st, c)
  {
    if Stranded(Take(w, st), c) || st.PodDeleted? || st.EventExpired? {
      match st
      case PodAdded(pod, initial) =>
        ChangePodDelivers(w.o, pod);
        SeedsDeliver(w.o, pod, KubeEvent("", false, Owner("", "", ""), "", ""));
        DeliveryStrandsNone(w, AddPod(w.o, pod, initial), c);
      case PodUpdated(pod) =>
        ChangePodDelivers(w.o, pod);
        DeliveryStrandsNone(w, ChangePod(w.o, pod), c);
      case PodDeleted(pod) => DeletionStrands(w, pod, c);
      case EventAdded(ev, initial) =>
        EventsDeliver(w.o, ev, InvolvedKey(ev));
        SeedsDeliver(w.o, Pod("", "", "", [], [], [], None), ev);
        DeliveryStrandsNone(w, AddEvent(w.o, ev, initial), c);
      case EventUpdated(ev) =>
        EventsDeliver(w.o, ev, InvolvedKey(ev));
        DeliveryStrandsNone(w, ChangeEvent(w.o, ev), c);
      case EventPulled(key) =>
        EventsDeliver(w.o, KubeEvent("", false, Owner("", "", ""), "", ""), key);
        DeliveryStrandsNone(w, PullEvent(w.o, key), c);
      case EventExpired(ev) => ExpiryStrands(w, ev, c);
      case Rescoped(sc, after) =>
        if Reconciled(w.o, after, sc) { RescopeStrandsNone(w, sc, after, c); }
      case ShutDown =>
    }
  }

  /** At every point of the run, what is open is tracked. */
  ghost predicate TrackedThroughout(steps: seq<Step>) {
    forall n, c :: 0 <= n <= |steps| ==> !Stranded(Taken(NEW_WORLD, steps[..n]), c)
  }

  /** No delivery of the run is one of those two. */
  ghost predicate NoneStrands(steps: seq<Step>) {
    forall i, c :: 0 <= i < |steps| ==> !Strands(Taken(NEW_WORLD, steps[..i]), steps[i], c)
  }

  /** The promise holds throughout a run exactly when none of its deliveries strands anything. */
  lemma OpenIsTrackedExactly(steps: seq<Step>)
    ensures TrackedThroughout(steps) <==> NoneStrands(steps)
  {
    hide Take, Taken, Strands, Stranded;
    if NoneStrands(steps) {
      forall n, c | 0 <= n <= |steps| ensures !Stranded(Taken(NEW_WORLD, steps[..n]), c) {
        NeverStranded(steps, n, c);
      }
    }
    if TrackedThroughout(steps) {
      forall i, c | 0 <= i < |steps| ensures !Strands(Taken(NEW_WORLD, steps[..i]), steps[i], c) {
        TrackedStrandsNone(steps, i, c);
      }
    }
  }

  lemma TrackedStrandsNone(steps: seq<Step>, i: nat, c: (Key, string))
    requires i < |steps| && !Stranded(Taken(NEW_WORLD, steps[..i]), c) && !Stranded(Taken(NEW_WORLD, steps[..i + 1]), c)
    ensures !Strands(Taken(NEW_WORLD, steps[..i]), steps[i], c)
  {
    hide Take, Strands, Stranded, Good;
    AlwaysGood(steps[..i]);
    StrandsExactly(Taken(NEW_WORLD, steps[..i]), steps[i], c);
    TakenOne(NEW_WORLD, steps[..i + 1]);
    assert steps[..i + 1][..i] == steps[..i];
  }

  lemma {:induction false} NeverStranded(steps: seq<Step>, n: nat, c: (Key, string))
    requires n <= |steps| && NoneStrands(steps)
    ensures !Stranded(Taken(NEW_WORLD, steps[..n]), c)
  {
    if n > 0 {
      hide Take, Strands, Good;
      NeverStranded(steps, n - 1, c);
      AlwaysGood(steps[..n - 1]);
      StrandsExactly(Taken(NEW_WORLD, steps[..n - 1]), steps[n - 1], c);
      assert steps[..n][..n - 1] == steps[..n - 1];
    }
  }

  // ---- exactly what is forgotten ----

  /** The deliveries that put c among the forgotten: its Event expires, or its pod goes and leaves it open. */
  predicate Forgets(w: World, st: Step, c: (Key, string)) {
    match st
    case EventExpired(ev) => c == (InvolvedKey(ev), ev.reason)
    case PodDeleted(pod) => c.0 == PodKey(pod) && c in w.open && !Narrated(w.o, c)
    case _ => false
  }

  /** The change of scope that clears the books of a namespace. */
  predicate Restarts(w: World, st: Step, ns: string) {
    match st
    case Rescoped(sc, after) => Reconciled(w.o, after, sc) && !Kept(w.o, after, ns)
    case ShutDown => true
    case _ => false
  }

  lemma ForgetStep(w: World, st: Step, c: (Key, string))
    ensures c in Take(w, st).forgotten <==> Forgets(w, st, c) || (c in w.forgotten && !Restarts(w, st, c.0.namespace))
  {
  }

  /** Forgotten at i, and its namespace's informers kept ever since. */
  predicate ForgottenAt(steps: seq<Step>, i: int, c: (Key, string)) {
    && 0 <= i < |steps| && Forgets(Taken(NEW_WORLD, steps[..i]), steps[i], c)
    && forall j :: i < j < |steps| ==> !Restarts(Taken(NEW_WORLD, steps[..j]), steps[j], c.0.namespace)
  }

  lemma TakenOne(w: World, steps: seq<Step>)
    requires steps != []
    ensures var n := |steps| - 1; Taken(w, steps) == Take(Taken(w, steps[..n]), steps[n])
  {
  }

  /**
   * Over any run, a condition ends up forgotten exactly when some delivery forgot it and its namespace
   * was not restarted since.
   */
  lemma {:induction false} ForgottenExactly(steps: seq<Step>, c: (Key, string))
    ensures c in Taken(NEW_WORLD, steps).forgotten <==> exists i :: ForgottenAt(steps, i, c)
    decreases |steps|, 1
  {
    if steps == [] {
      assert Taken(NEW_WORLD, steps) == NEW_WORLD;
    } else {
      ForgottenOneMore(steps, c);
    }
  }

  lemma {:induction false} ForgottenOneMore(steps: seq<Step>, c: (Key, string))
    requires steps != []
    ensures c in Taken(NEW_WORLD, steps).forgotten <==> exists i :: ForgottenAt(steps, i, c)
    decreases |steps|, 0
  {
    hide Take, Taken, Forgets, Restarts;
    var n := |steps| - 1;
    var before := steps[..n];
    ForgottenExactly(before, c);
    TakenOne(NEW_WORLD, steps);
    ForgetStep(Taken(NEW_WORLD, before), steps[n], c);
    LastForgotten(steps, c);
    forall i | 0 <= i < n
      ensures ForgottenAt(steps, i, c) <==>
              ForgottenAt(before, i, c) && !Restarts(Taken(NEW_WORLD, before), steps[n], c.0.namespace)
    {
      StillForgotten(steps, i, c);
    }
    hide ForgottenAt;
    if c in Taken(NEW_WORLD, steps).forgotten && !Forgets(Taken(NEW_WORLD, before), steps[n], c) {
      var i :| ForgottenAt(before, i, c);
      InRange(before, i, c);
      assert ForgottenAt(steps, i, c);
    }
    if i :| ForgottenAt(steps, i, c) {
      InRange(steps, i, c);
      if i < n { assert ForgottenAt(before, i, c); }
    }
  }

  lemma InRange(steps: seq<Step>, i: int, c: (Key, string))
    requires ForgottenAt(steps, i, c)
    ensures 0 <= i < |steps|
  {
  }

  lemma LastForgotten(steps: seq<Step>, c: (Key, string))
    requires steps != []
    ensures var n := |steps| - 1; ForgottenAt(steps, n, c) <==> Forgets(Taken(NEW_WORLD, steps[..n]), steps[n], c)
  {
    hide Take, Taken, Forgets, Restarts;
  }

  lemma StillForgotten(steps: seq<Step>, i: int, c: (Key, string))
    requires 0 <= i < |steps| - 1
    ensures var n := |steps| - 1;
            ForgottenAt(steps, i, c) <==>
              ForgottenAt(steps[..n], i, c) && !Restarts(Taken(NEW_WORLD, steps[..n]), steps[n], c.0.namespace)
  {
    hide Take, Taken, Forgets, Restarts;
    var n := |steps| - 1;
    forall j | 0 <= j < n ensures steps[..n][..j] == steps[..j] && steps[..n][j] == steps[j] {}
  }

  // ---- what is published, and what is taken back ----

  /** Whatever a delivery records as narrated it publishes, and does not take back. */
  ghost predicate Announces(o: Obs, d: (Obs, Out)) {
    forall c :: Narrated(d.0, c) && !Narrated(o, c) ==> c in d.1.arose && c !in d.1.resolved
  }

  lemma ChangeAnnounces(o: Obs, pod: Pod)
    ensures Announces(o, ChangePod(o, pod))
  {
    hide PodTrouble;
  }

  lemma PodsAnnounce(o: Obs, pod: Pod)
    ensures Announces(o, DeletePod(o, pod)) && Announces(o, (SeedPod(o, pod), SILENT))
  {
    hide PodTrouble;
  }

  lemma EventsAnnounce(o: Obs, ev: KubeEvent, key: Key)
    ensures Announces(o, ChangeEvent(o, ev)) && Announces(o, (SeedEvent(o, ev), SILENT))
    ensures Announces(o, PullEvent(o, key)) && Announces(o, (ExpireEvent(o, ev), SILENT))
  {
  }

  /** Stopping and starting informers narrates nothing. */
  lemma ScopeAnnounces(o: Obs, sc: Scope, after: Obs)
    requires Reconciled(o, after, sc)
    ensures Announces(o, (after, SILENT))
  {
    SettledDrops(o, sc);
    hide Settled, NothingToWatch;
  }

  lemma SettledDrops(o: Obs, sc: Scope)
    ensures forall k :: k in Settled(o, sc).pods ==> k in o.pods && Settled(o, sc).pods[k] == o.pods[k]
    ensures forall k :: k in Settled(o, sc).events ==> k in o.events && Settled(o, sc).events[k] == o.events[k]
  {
  }

  /** Nothing becomes narrated without being published: whatever a step records as narrated is open after it. */
  lemma NarratedIsOpen(w: World, st: Step, c: (Key, string))
    requires Narrated(Take(w, st).o, c) && !Narrated(w.o, c)
    ensures c in Take(w, st).open
  {
    hide Narrated, ChangePod, DeletePod, SeedPod, ChangeEvent, SeedEvent, PullEvent, ExpireEvent, Reconciled,
      StopNamespaces;
    var noPod, noEvent := Pod("", "", "", [], [], [], None), KubeEvent("", false, Owner("", "", ""), "", "");
    match st
    case PodAdded(pod, _) =>
      ChangeAnnounces(w.o, pod);
      PodsAnnounce(w.o, pod);
    case PodUpdated(pod) => ChangeAnnounces(w.o, pod);
    case PodDeleted(pod) => PodsAnnounce(w.o, pod);
    case EventAdded(ev, _) => EventsAnnounce(w.o, ev, PodKey(noPod));
    case EventUpdated(ev) => EventsAnnounce(w.o, ev, PodKey(noPod));
    case EventPulled(key) => EventsAnnounce(w.o, noEvent, key);
    case EventExpired(ev) => EventsAnnounce(w.o, ev, PodKey(noPod));
    case Rescoped(sc, after) => if Reconciled(w.o, after, sc) { ScopeAnnounces(w.o, sc, after); }
    case ShutDown => ShutDownAnnounces(w.o);
  }

  lemma ShutDownAnnounces(o: Obs)
    ensures Announces(o, (StopNamespaces(o, o.entries.Keys).(runId := ""), SILENT))
  {
  }

  /** And nothing is published twice: only a reason not recorded, or recorded for another container of the pod. */
  lemma ArisesOnce(w: World, st: Step, c: (Key, string))
    requires c in Take(w, st).open && c !in w.open
    ensures Narrated(Take(w, st).o, c)
    ensures st.EventAdded? || st.EventUpdated? ==> c.1 !in At(w.o.events, c.0)
    ensures st.PodAdded? || st.PodUpdated? ==>
              c.1 in At(w.o.pods, c.0) ==>
                At(Take(w, st).o.pods, c.0)[c.1].container != w.o.pods[c.0][c.1].container
  {
  }

  /** A Warning in a watched namespace, of a reason not yet recorded for its object, is recorded and published. */
  lemma WarningOpens(steps: seq<Step>, ev: KubeEvent, initial: bool)
    requires var o := Taken(NEW_WORLD, steps).o;
             && ev.warning && ev.namespace in o.entries && (!initial || ev.namespace in o.tornDown)
             && ev.reason !in At(o.events, InvolvedKey(ev))
    ensures var key := Key(ev.involved.kind, ev.namespace, ev.involved.name, ev.involved.uid);
            var w := Taken(NEW_WORLD, steps + [EventAdded(ev, initial)]);
            && w == Taken(NEW_WORLD, steps + [EventUpdated(ev)])
            && (key, ev.reason) in w.open && At(w.o.events, key)[ev.reason] == EventCond(ev.container, true)
  {
    assert (steps + [EventAdded(ev, initial)])[..|steps|] == steps;
    assert (steps + [EventUpdated(ev)])[..|steps|] == steps;
  }

  /** So is a pod's trouble, unless it stands recorded for the same container. */
  lemma TroubleOpens(steps: seq<Step>, pod: Pod, initial: bool)
    requires var o := Taken(NEW_WORLD, steps).o;
             && PodTrouble(pod).Some? && pod.namespace in o.entries && (!initial || pod.namespace in o.tornDown)
             && var t := PodTrouble(pod).value;
                t.reason in At(o.pods, PodKey(pod)) ==> At(o.pods, PodKey(pod))[t.reason].container != t.container
    ensures var t, key := PodTrouble(pod).value, Key("Pod", pod.namespace, pod.name, pod.uid);
            var w := Taken(NEW_WORLD, steps + [PodAdded(pod, initial)]);
            && w == Taken(NEW_WORLD, steps + [PodUpdated(pod)])
            && (key, t.reason) in w.open && At(w.o.pods, key)[t.reason] == PodCond(t.detail, t.container, true)
  {
    assert (steps + [PodAdded(pod, initial)])[..|steps|] == steps;
    assert (steps + [PodUpdated(pod)])[..|steps|] == steps;
  }

  /** What comes from a namespace nobody watches is ignored, and so is every Event that is no Warning. */
  lemma UnwatchedIsIgnored(w: World, pod: Pod, ev: KubeEvent, initial: bool)
    requires pod.namespace !in w.o.entries && (ev.namespace !in w.o.entries || !ev.warning)
    ensures Take(w, PodAdded(pod, initial)) == w && Take(w, PodUpdated(pod)) == w
    ensures Take(w, EventAdded(ev, initial)) == w && Take(w, EventUpdated(ev)) == w
  {
    assert w.open + {} - {} == w.open;
  }

  /** A first listing is not news: it is recorded as not narrated, and changes nothing that is published. */
  lemma ListingIsNotNews(w: World, pod: Pod, ev: KubeEvent)
    requires pod.namespace in w.o.entries && pod.namespace !in w.o.tornDown && PodTrouble(pod).Some?
    requires ev.warning && ev.namespace in w.o.entries && ev.namespace !in w.o.tornDown
    ensures var t, w' := PodTrouble(pod).value, Take(w, PodAdded(pod, true));
            w'.open == w.open && At(w'.o.pods, PodKey(pod))[t.reason] == PodCond(t.detail, t.container, false)
    ensures var w' := Take(w, EventAdded(ev, true));
            w'.open == w.open && At(w'.o.events, InvolvedKey(ev))[ev.reason] == EventCond(ev.container, false)
  {
  }

  /**
   * What a delivery takes back it no longer tracks, except that the pod map may still hold a Warning
   * pulled back on its own, or one about a controller that is itself a pod.
   */
  lemma TakenBackIsCleared(w: World, st: Step, c: (Key, string))
    requires c in w.open && c !in Take(w, st).open
    requires !st.Rescoped? && !st.ShutDown?
    ensures c.1 !in At(Take(w, st).o.events, c.0)
    ensures c.1 in At(Take(w, st).o.pods, c.0) ==>
              st.EventPulled? || ((st.PodAdded? || st.PodUpdated?) && c.0 in ControllerKeys(st.pod))
    ensures Tracked(w.o, c)
  {
  }

  // ---- scope ----

  /**
   * What is watched is exactly the latest scope, and nothing at all without a run or once it is over.
   * A namespace that stays in scope under the same run keeps its informers and all that is recorded
   * for it; under another run nothing does.
   */
  lemma ScopeIsExact(steps: seq<Step>, sc: Scope, after: Obs)
    requires Reconciled(Taken(NEW_WORLD, steps).o, after, sc)
    ensures var o, watched := Taken(NEW_WORLD, steps).o, sc.runId != "" && !sc.terminal && sc.namespaces != {};
            && (watched ==> after.entries.Keys == sc.namespaces && after.runId == sc.runId)
            && (!watched ==>
                  after.entries == map[] && after.pods == map[] && after.events == map[] && after.runId == "")
            && (watched && o.runId == sc.runId ==>
                  forall ns :: ns in o.entries && ns in sc.namespaces ==> Kept(o, after, ns) && SameFor(o, after, ns))
            && (o.runId != sc.runId ==>
                  forall ns :: ns in after.entries ==> !Kept(o, after, ns) && NothingFor(after, ns))
  {
    var o := Taken(NEW_WORLD, steps).o;
    var watched := sc.runId != "" && !sc.terminal && sc.namespaces != {};
    AlwaysGood(steps);
    SettledKeeps(o, sc);
    StartKeepsTracked(Settled(o, sc), after, if NothingToWatch(sc) then {} else sc.namespaces);
    if watched {
      WatchedExactly(o, sc, after);
    } else {
      assert after.entries == map[];
    }
  }

  /** Everything recorded for a namespace stays as it was. */
  ghost predicate SameFor(a: Obs, b: Obs, ns: string) {
    forall k: Key :: k.namespace == ns ==> At(b.pods, k) == At(a.pods, k) && At(b.events, k) == At(a.events, k)
  }

  ghost predicate NothingFor(o: Obs, ns: string) {
    forall k: Key :: k.namespace == ns ==> k !in o.pods && k !in o.events
  }

  lemma WatchedExactly(o: Obs, sc: Scope, after: Obs)
    requires NoStray(o) && (forall ns :: ns in o.entries ==> o.entries[ns] < o.started)
    requires (o.entries.Keys != {} ==> o.runId == o.tornRun) && Reconciled(o, after, sc)
    requires sc.runId != "" && !sc.terminal && sc.namespaces != {}
    ensures after.entries.Keys == sc.namespaces && after.runId == sc.runId
    ensures o.runId == sc.runId ==>
              forall ns :: ns in o.entries && ns in sc.namespaces ==> Kept(o, after, ns) && SameFor(o, after, ns)
    ensures o.runId != sc.runId ==> forall ns :: ns in after.entries ==> !Kept(o, after, ns) && NothingFor(after, ns)
  {
    var t := Settled(o, sc);
    SettledKeeps(o, sc);
    SettledSurvivors(o, sc);
    if o.runId != sc.runId {
      assert t.entries.Keys == {};
      forall ns | ns in after.entries && ns in o.entries ensures !Kept(o, after, ns) {
        assert o.entries[ns] < o.started <= after.entries[ns];
      }
    }
  }

  /** So once a run is over, or there is none, nothing is watched, recorded or left open. */
  lemma OverIsOver(steps: seq<Step>, sc: Scope, after: Obs)
    requires Reconciled(Taken(NEW_WORLD, steps).o, after, sc) && (sc.terminal || sc.runId == "")
    ensures var w := Taken(NEW_WORLD, steps + [Rescoped(sc, after)]);
            w.o.entries == map[] && w.open == {} && w.forgotten == {} && forall c :: !Tracked(w.o, c)
  {
    ScopeIsExact(steps, sc, after);
    assert (steps + [Rescoped(sc, after)])[..|steps|] == steps;
  }

  /**
   * A namespace counts as restarted exactly when an informer pair started for it under the run now
   * attributed has been torn down.
   */
  lemma RestartIsExact(steps: seq<Step>, ns: string)
    ensures var w := Taken(NEW_WORLD, steps); IsRestart(w.o, ns) <==> (w.attribution, ns) in w.torn
  {
    AlwaysGood(steps);
  }

  /** A different run inherits no restart marks; the same run coming back, as a Retry does, keeps its own. */
  lemma MarksFollowTheRun(steps: seq<Step>, sc: Scope, after: Obs, ns: string)
    requires Reconciled(Taken(NEW_WORLD, steps).o, after, sc) && !NothingToWatch(sc)
    ensures sc.runId != Taken(NEW_WORLD, steps).o.tornRun ==> !IsRestart(after, ns)
    ensures sc.runId == Taken(NEW_WORLD, steps).o.tornRun && IsRestart(Taken(NEW_WORLD, steps).o, ns) ==>
            IsRestart(after, ns)
  {
    AlwaysGood(steps);
    SettledMarks(Taken(NEW_WORLD, steps).o, sc);
    SettledKeeps(Taken(NEW_WORLD, steps).o, sc);
  }
}
