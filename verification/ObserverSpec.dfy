/**
 * The observer's tracked conditions as values: what each informer delivery and each change of
 * scope makes of them, one lock hold at a time.
 */
module ObserverSpec {
  import opened Wrappers

  /** What a tracked entry is about. */
  datatype Key = Key(kind: string, namespace: string, name: string, uid: string)

  datatype Condition = Condition(unscheduled: bool, reason: string)
  datatype Container = Container(name: string, waiting: Option<string>)
  datatype Owner = Owner(kind: string, name: string, uid: string)
  datatype Pod = Pod(namespace: string, name: string, uid: string, conditions: seq<Condition>,
                     init: seq<Container>, regular: seq<Container>, controller: Option<Owner>)

  /** A Kubernetes Event: its own namespace, and the object it is about. */
  datatype KubeEvent = KubeEvent(namespace: string, warning: bool, involved: Owner, reason: string, container: string)

  datatype PodCond = PodCond(detail: string, container: string, narrated: bool)
  datatype EventCond = EventCond(container: string, narrated: bool)

  datatype Scope = Scope(runId: string, namespaces: set<string>, terminal: bool)

  /**
   * entries are the live namespaces, each with the number of its informer pair; tornDown the
   * namespaces torn down under run tornRun.
   */
  datatype Obs = Obs(entries: map<string, nat>, started: nat, runId: string, tornDown: set<string>, tornRun: string,
                     pods: map<Key, map<string, PodCond>>, events: map<Key, map<string, EventCond>>)

  const NEW_OBSERVER := Obs(map[], 0, "", {}, "", map[], map[])

  /** The conditions one delivery published as arising and as resolved. */
  datatype Out = Out(arose: set<(Key, string)>, resolved: set<(Key, string)>)

  const SILENT := Out({}, {})

  // ---- a pod's one trouble ----

  const UNSCHEDULABLE := "Unschedulable"
  const IMAGE_PULL := "ImagePullBackOff"
  const ERR_IMAGE_PULL := "ErrImagePull"
  const CRASH_LOOP := "CrashLoopBackOff"

  datatype Trouble = Trouble(reason: string, detail: string, container: string)

  /** The kubelet's two names for one stuck pull become one. */
  function Normalize(raw: string): string { if raw == ERR_IMAGE_PULL then IMAGE_PULL else raw }

  predicate Narratable(raw: string) { raw == IMAGE_PULL || raw == ERR_IMAGE_PULL || raw == CRASH_LOOP }

  /** Error outranks Warn. */
  function Severity(reason: string): int { if reason == CRASH_LOOP || reason == UNSCHEDULABLE then 2 else 1 }

  predicate Stuck(c: Container) { c.waiting.Some? && Narratable(c.waiting.value) }

  function Rank(c: Container): int { if Stuck(c) then Severity(Normalize(c.waiting.value)) else 0 }

  predicate IsUnschedulable(pod: Pod) {
    exists i :: 0 <= i < |pod.conditions| && pod.conditions[i].unscheduled && pod.conditions[i].reason == UNSCHEDULABLE
  }

  /** The first container of the highest rank, if any is stuck. */
  predicate WorstAt(cs: seq<Container>, i: int) {
    && 0 <= i < |cs| && Stuck(cs[i])
    && (forall j :: 0 <= j < i ==> Rank(cs[j]) < Rank(cs[i]))
    && (forall j :: i < j < |cs| ==> Rank(cs[j]) <= Rank(cs[i]))
  }

  function Worst(cs: seq<Container>, n: nat): (r: Option<nat>)
    requires n <= |cs|
    ensures r.None? ==> forall j :: 0 <= j < n ==> !Stuck(cs[j])
    ensures r.Some? ==> r.value < n && WorstAt(cs[..n], r.value)
  {
    if n == 0 then None
    else
      var before := Worst(cs, n - 1);
      if Stuck(cs[n - 1]) && (before.None? || Rank(cs[n - 1]) > Rank(cs[before.value])) then
        WorstTakesOver(cs, n, before);
        Some(n - 1)
      else
        WorstStands(cs, n, before);
        before
  }

  lemma WorstTakesOver(cs: seq<Container>, n: nat, before: Option<nat>)
    requires 0 < n <= |cs| && Stuck(cs[n - 1])
    requires before.None? ==> forall j :: 0 <= j < n - 1 ==> !Stuck(cs[j])
    requires before.Some? ==>
             before.value < n - 1 && WorstAt(cs[..n - 1], before.value) && Rank(cs[n - 1]) > Rank(cs[before.value])
    ensures WorstAt(cs[..n], n - 1)
  {
    forall j | 0 <= j < n - 1 ensures Rank(cs[..n][j]) < Rank(cs[n - 1]) {
      assert cs[..n - 1][j] == cs[j];
      if before.Some? { assert cs[..n - 1][before.value] == cs[before.value]; }
    }
  }

  lemma WorstStands(cs: seq<Container>, n: nat, before: Option<nat>)
    requires 0 < n <= |cs|
    requires before.Some? ==> before.value < n - 1 && WorstAt(cs[..n - 1], before.value)
    requires before.Some? ==> !Stuck(cs[n - 1]) || Rank(cs[n - 1]) <= Rank(cs[before.value])
    ensures before.Some? ==> WorstAt(cs[..n], before.value)
  {
    hide Stuck, Rank;
    if before.Some? {
      assert forall j :: 0 <= j < n - 1 ==> cs[..n][j] == cs[..n - 1][j];
      StuckRanks(cs[n - 1], cs[before.value]);
    }
  }

  lemma StuckRanks(c: Container, d: Container)
    ensures !Stuck(c) && Stuck(d) ==> Rank(c) <= Rank(d)
  {
  }

  function TroubleAt(c: Container): Trouble
    requires Stuck(c)
  {
    Trouble(Normalize(c.waiting.value), c.waiting.value, c.name)
  }

  function PodTrouble(pod: Pod): Option<Trouble> {
    if IsUnschedulable(pod) then Some(Trouble(UNSCHEDULABLE, UNSCHEDULABLE, ""))
    else
      var all := pod.init + pod.regular;
      match Worst(all, |all|)
      case None => None
      case Some(i) => assert all[..|all|] == all; Some(TroubleAt(all[i]))
  }

  /** The container at i waits for one of the reasons, and none before it does. */
  predicate FirstWaiting(cs: seq<Container>, i: int, reasons: set<string>) {
    && 0 <= i < |cs| && cs[i].waiting.Some? && cs[i].waiting.value in reasons
    && forall j :: 0 <= j < i && cs[j].waiting.Some? ==> cs[j].waiting.value !in reasons
  }

  predicate NoneWaiting(cs: seq<Container>, reasons: set<string>) {
    forall j :: 0 <= j < |cs| && cs[j].waiting.Some? ==> cs[j].waiting.value !in reasons
  }

  lemma WorstIsFirst(cs: seq<Container>, i: int)
    requires WorstAt(cs, i)
    ensures var crashing := {"CrashLoopBackOff"};
            var t := TroubleAt(cs[i]);
            if !NoneWaiting(cs, crashing) then
              FirstWaiting(cs, i, crashing) && t == Trouble("CrashLoopBackOff", "CrashLoopBackOff", cs[i].name)
            else
              && FirstWaiting(cs, i, {"ImagePullBackOff", "ErrImagePull"})
              && t == Trouble("ImagePullBackOff", cs[i].waiting.value, cs[i].name)
  {
  }

  lemma NoneIsStuck(cs: seq<Container>)
    requires forall j :: 0 <= j < |cs| ==> !Stuck(cs[j])
    ensures NoneWaiting(cs, {"CrashLoopBackOff", "ImagePullBackOff", "ErrImagePull"})
  {
  }

  /**
   * A pod's one trouble: that it cannot be scheduled; else its first crash-looping container, init
   * containers first, whatever else is stuck; else the first that cannot pull its image, under one name.
   */
  lemma TroubleExactly(pod: Pod)
    ensures var all := pod.init + pod.regular;
            var unscheduled := Condition(true, "Unschedulable") in pod.conditions;
            match PodTrouble(pod)
            case None =>
              && !unscheduled
              && NoneWaiting(all, {"CrashLoopBackOff", "ImagePullBackOff", "ErrImagePull"})
            case Some(t) =>
              if unscheduled then t == Trouble("Unschedulable", "Unschedulable", "")
              else if !NoneWaiting(all, {"CrashLoopBackOff"}) then
                exists i :: FirstWaiting(all, i, {"CrashLoopBackOff"}) &&
                  t == Trouble("CrashLoopBackOff", "CrashLoopBackOff", all[i].name)
              else
                exists i :: FirstWaiting(all, i, {"ImagePullBackOff", "ErrImagePull"}) &&
                  t == Trouble("ImagePullBackOff", all[i].waiting.value, all[i].name)
  {
    var all := pod.init + pod.regular;
    assert IsUnschedulable(pod) <==> Condition(true, "Unschedulable") in pod.conditions;
    assert all[..|all|] == all;
    if !IsUnschedulable(pod) {
      if Worst(all, |all|).Some? {
        WorstIsFirst(all, Worst(all, |all|).value);
      } else {
        NoneIsStuck(all);
      }
    }
    hide IsUnschedulable, FirstWaiting, NoneWaiting, Stuck;
  }

  // ---- keys ----

  const POD := "Pod"

  function PodKey(pod: Pod): Key { Key(POD, pod.namespace, pod.name, pod.uid) }

  /** The Event's own namespace, which is real even when it is about a cluster-scoped object. */
  function InvolvedKey(ev: KubeEvent): Key { Key(ev.involved.kind, ev.namespace, ev.involved.name, ev.involved.uid) }

  /** The key a Warning about the pod's controller is recorded under. */
  function ControllerKeys(pod: Pod): set<Key> {
    match pod.controller
    case None => {}
    case Some(c) => {Key(c.kind, pod.namespace, c.name, c.uid)}
  }

  /** A Warning about the pod's controller, from the pod's own namespace, lands on that key. */
  lemma ControllerKeyMatches(pod: Pod, ev: KubeEvent)
    requires pod.controller == Some(ev.involved) && ev.namespace == pod.namespace
    ensures InvolvedKey(ev) in ControllerKeys(pod)
  {
  }

  // ---- tracked maps ----

  function At<V>(m: map<Key, map<string, V>>, k: Key): map<string, V> { if k in m then m[k] else map[] }

  function Track<V>(m: map<Key, map<string, V>>, k: Key, reason: string, v: V): map<Key, map<string, V>> {
    m[k := At(m, k)[reason := v]]
  }

  function Pairs<V>(m: map<Key, map<string, V>>, ks: set<Key>): set<(Key, string)> {
    set k, r | k in ks && k in m && r in m[k] :: (k, r)
  }

  // ---- deliveries ----

  predicate Live(o: Obs, ns: string) { ns in o.entries }

  predicate IsRestart(o: Obs, ns: string) { ns in o.tornDown }

  function SeedPod(o: Obs, pod: Pod): Obs {
    match PodTrouble(pod)
    case Some(t) =>
      if Live(o, pod.namespace) then o.(pods := Track(o.pods, PodKey(pod), t.reason,
        PodCond(t.detail, t.container, false))) else o
    case None => o
  }

  /** A recovery clears the pod's conditions, the Warnings about it and those about its controller. */
  function ChangePod(o: Obs, pod: Pod): (Obs, Out) {
    var key := PodKey(pod);
    if !Live(o, pod.namespace) then (o, SILENT)
    else
      match PodTrouble(pod)
      case None =>
        var gone := {key} + ControllerKeys(pod);
        (o.(pods := o.pods - {key}, events := o.events - gone), Out({}, Pairs(o.pods, {key}) + Pairs(o.events, gone)))
      case Some(t) =>
        if t.reason in At(o.pods, key) && At(o.pods, key)[t.reason].container == t.container then (o, SILENT)
        else (o.(pods := Track(o.pods, key, t.reason, PodCond(t.detail, t.container, true))),
          Out({(key, t.reason)}, {}))
  }

  function AddPod(o: Obs, pod: Pod, initial: bool): (Obs, Out) {
    if initial && !IsRestart(o, pod.namespace) then (SeedPod(o, pod), SILENT) else ChangePod(o, pod)
  }

  function ToldPods(k: Key, m: map<string, PodCond>): set<(Key, string)> { set r | r in m && m[r].narrated :: (k, r) }

  function ToldEvents(k: Key, m: map<string, EventCond>): set<(Key, string)> {
    set r | r in m && m[r].narrated :: (k, r)
  }

  /** A deletion only takes back what was narrated. */
  function DeletePod(o: Obs, pod: Pod): (Obs, Out) {
    var key := PodKey(pod);
    (o.(pods := o.pods - {key}, events := o.events - {key}),
      Out({}, ToldPods(key, At(o.pods, key)) + ToldEvents(key, At(o.events, key))))
  }

  function SeedEvent(o: Obs, ev: KubeEvent): Obs {
    if ev.warning && Live(o,
      ev.namespace) then o.(events := Track(o.events, InvolvedKey(ev), ev.reason, EventCond(ev.container, false)))
    else o
  }

  /** The first hold of a Warning's delivery: narrate a reason not yet recorded. */
  function ChangeEvent(o: Obs, ev: KubeEvent): (Obs, Out) {
    var key := InvolvedKey(ev);
    if !ev.warning || !Live(o, ev.namespace) || ev.reason in At(o.events, key) then (o, SILENT)
    else (o.(events := Track(o.events, key, ev.reason, EventCond(ev.container, true))), Out({(key, ev.reason)}, {}))
  }

  /** Its second: the pod cache says the pod is healthy right now. */
  function PullEvent(o: Obs, key: Key): (Obs, Out) {
    (o.(events := o.events - {key}), Out({}, Pairs(o.events, {key})))
  }

  function AddEvent(o: Obs, ev: KubeEvent, initial: bool): (Obs, Out) {
    if initial && !IsRestart(o, ev.namespace) then (SeedEvent(o, ev), SILENT) else ChangeEvent(o, ev)
  }

  /** The Event object aged out: its dedupe entry goes, and nothing is published. */
  function ExpireEvent(o: Obs, ev: KubeEvent): Obs {
    var key := InvolvedKey(ev);
    if key !in o.events then o
    else
      var rest := o.events[key] - {ev.reason};
      o.(events := if rest == map[] then o.events - {key} else o.events[key := rest])
  }

  // ---- scope ----

  function WithoutNamespaces<V>(m: map<Key, V>, gone: set<string>): map<Key, V> {
    map k | k in m && k.namespace !in gone :: m[k]
  }

  /** Tearing namespaces down: informers stopped, and everything tracked for them dropped. */
  function StopNamespaces(o: Obs, gone: set<string>): Obs {
    var stopped := gone * o.entries.Keys;
    o.(entries := o.entries - stopped, tornDown := o.tornDown + stopped,
       pods := WithoutNamespaces(o.pods, stopped), events := WithoutNamespaces(o.events, stopped))
  }

  predicate NothingToWatch(sc: Scope) { sc.runId == "" || sc.namespaces == {} || sc.terminal }

  function StopAll(o: Obs): Obs { StopNamespaces(o, o.entries.Keys) }

  /** A different run's informers are never valid for this one's. */
  function Switch(o: Obs, run: string): Obs { if o.runId != run then StopAll(o).(runId := run) else o }

  /** Nor are its teardown marks, which the last stop may just have added to. */
  function Attribute(o: Obs, run: string): Obs { if run != o.tornRun then o.(tornDown := {}, tornRun := run) else o }

  function Narrow(o: Obs, wanted: set<string>): Obs { StopNamespaces(o, o.entries.Keys - wanted) }

  /** reconcile up to the point where it starts what is missing. */
  function Settled(o: Obs, sc: Scope): Obs {
    if NothingToWatch(sc) then StopAll(o).(runId := "")
    else Narrow(Attribute(Switch(o, sc.runId), sc.runId), sc.namespaces)
  }

  /** after is before with an informer pair started for each wanted namespace that had none, numbered afresh. */
  predicate StartsMissing(before: Obs, after: Obs, wanted: set<string>) {
    && after == before.(entries := after.entries, started := after.started)
    && after.entries.Keys == before.entries.Keys + wanted
    && (forall ns :: ns in before.entries ==> after.entries[ns] == before.entries[ns])
    && before.started <= after.started
    && (forall ns :: ns in wanted && ns !in before.entries ==> before.started <= after.entries[ns] < after.started)
  }

  /** What reconcile leaves: the order in which missing namespaces start, and so their numbers, is open. */
  predicate Reconciled(before: Obs, after: Obs, sc: Scope) {
    StartsMissing(Settled(before, sc), after, if NothingToWatch(sc) then {} else sc.namespaces)
  }
}
