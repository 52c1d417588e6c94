/**
 * The observer object: handlers and reconcile, in place. Each method is one hold of the locks its
 * source takes, and returns what it publishes once they are released.
 */
module Observers {
  import opened Wrappers
  import opened ObserverSpec

  /** A scan of the containers, init ones first, keeping the worst seen. */
  method FindTrouble(pod: Pod) returns (t: Option<Trouble>)
    ensures t == PodTrouble(pod)
  {
    for i := 0 to |pod.conditions|
      invariant forall j :: 0 <= j < i ==> !(pod.conditions[j].unscheduled && pod.conditions[j].reason == UNSCHEDULABLE)
    {
      if pod.conditions[i].unscheduled && pod.conditions[i].reason == UNSCHEDULABLE {
        return Some(Trouble(UNSCHEDULABLE, UNSCHEDULABLE, ""));
      }
    }
    var all := pod.init + pod.regular;
    var best: Option<nat> := None;
    for i := 0 to |all|
      invariant best == Worst(all, i)
    {
      var c := all[i];
      if c.waiting.Some? && Narratable(c.waiting.value) {
        var severity := Severity(Normalize(c.waiting.value));
        if best.None? || severity > Severity(Normalize(all[best.value].waiting.value)) {
          best := Some(i);
        }
      }
    }
    if best.None? { return None; }
    var worst := all[best.value];
    return Some(Trouble(Normalize(worst.waiting.value), worst.waiting.value, worst.name));
  }

  lemma StopTwice(o: Obs, a: set<string>, b: set<string>)
    ensures StopNamespaces(StopNamespaces(o, a), b) == StopNamespaces(o, a + b)
  {
    var once, twice := StopNamespaces(o, a), StopNamespaces(StopNamespaces(o, a), b);
    var both := StopNamespaces(o, a + b);
    assert twice.entries == both.entries;
    assert twice.tornDown == both.tornDown;
    forall k: Key ensures k in twice.pods <==> k in both.pods {}
    forall k: Key ensures k in twice.events <==> k in both.events {}
    assert twice.pods == both.pods && twice.events == both.events;
  }

  lemma StopNone(o: Obs)
    ensures StopNamespaces(o, {}) == o
  {
    assert o.entries - {} == o.entries;
  }

  lemma PairsOfOne<V>(m: map<Key, map<string, V>>, k: Key)
    ensures Pairs(m, {k}) == set r | r in At(m, k) :: (k, r)
  {
    forall c ensures c in Pairs(m, {k}) <==> c in (set r | r in At(m, k) :: (k, r)) {
      if c.0 == k && c.1 in At(m, k) { assert c == (k, c.1); }
    }
  }

  lemma PairsOfBoth<V>(m: map<Key, map<string, V>>, a: set<Key>, b: set<Key>)
    ensures Pairs(m, a + b) == Pairs(m, a) + Pairs(m - a, b)
  {
  }

  method NarratedReasons(key: Key, conditions: map<string, PodCond>) returns (told: set<(Key, string)>)
    ensures told == ToldPods(key, conditions)
  {
    told := {};
    var reasons := conditions.Keys;
    while reasons != {}
      invariant reasons <= conditions.Keys
      invariant told == set r | r in conditions && r !in reasons && conditions[r].narrated :: (key, r)
      decreases |reasons|
    {
      var r :| r in reasons;
      if conditions[r].narrated {
        told := told + {(key, r)};
      }
      reasons := reasons - {r};
    }
  }

  class Observer {
    var entries: map<string, nat>
    var started: nat
    var runId: string
    var tornDown: set<string>
    var tornRun: string
    var pods: map<Key, map<string, PodCond>>
    var events: map<Key, map<string, EventCond>>

    function Abs(): Obs
      reads this
    {
      Obs(entries, started, runId, tornDown, tornRun, pods, events)
    }

    constructor ()
      ensures Abs() == NEW_OBSERVER
    {
      entries, started, runId, tornDown, tornRun, pods, events := map[], 0, "", {}, "", map[], map[];
    }

    // ---- pods ----

    method SeedPodBaseline(pod: Pod)
      modifies this
      ensures Abs() == SeedPod(old(Abs()), pod)
    {
      var t := FindTrouble(pod);
      if t.None? { return; }
      if pod.namespace in entries {
        var key := PodKey(pod);
        if key !in pods {
          pods := pods[key := map[]];
        }
        pods := pods[key := pods[key][t.value.reason := PodCond(t.value.detail, t.value.container, false)]];
      }
    }

    /** Warnings recorded about key go, and are returned as resolved unless only narrated ones are asked for. */
    method ResolveEvents(key: Key, narratedOnly: bool) returns (resolved: set<(Key, string)>)
      modifies `events
      ensures events == old(events) - {key}
      ensures resolved == if narratedOnly then ToldEvents(key, At(old(events), key)) else Pairs(old(events), {key})
    {
      resolved := {};
      if key !in events {
        assert events - {key} == events;
        PairsOfOne(events, key);
        return;
      }
      var set_ := events[key];
      var reasons := set_.Keys;
      while reasons != {}
        invariant reasons <= set_.Keys && events == old(events)
        invariant resolved == set r | r in set_ && r !in reasons && (!narratedOnly || set_[r].narrated) :: (key, r)
        decreases |reasons|
      {
        var r :| r in reasons;
        if !narratedOnly || set_[r].narrated {
          resolved := resolved + {(key, r)};
        }
        reasons := reasons - {r};
      }
      PairsOfOne(events, key);
      assert resolved == if narratedOnly then ToldEvents(key, set_) else Pairs(events, {key});
      events := events - {key};
    }

    method OnPodChange(pod: Pod) returns (out: Out)
      modifies this
      ensures (Abs(), out) == ChangePod(old(Abs()), pod)
    {
      var t := FindTrouble(pod);
      if pod.namespace !in entries { return SILENT; }
      var key := PodKey(pod);
      if t.None? {
        out := Out({}, Pairs(pods, {key}));
        pods := pods - {key};
        var resolved := ResolveEvents(key, false);
        out := out.(resolved := out.resolved + resolved);
        PairsOfBoth(old(events), {key}, ControllerKeys(pod));
        if pod.controller.Some? {
          var owner := Key(pod.controller.value.kind, pod.namespace, pod.controller.value.name,
            pod.controller.value.uid);
          resolved := ResolveEvents(owner, false);
          out := out.(resolved := out.resolved + resolved);
        }
        ghost var gone := {key} + ControllerKeys(pod);
        assert events == old(events) - gone;
        assert out.resolved == Pairs(old(pods), {key}) + Pairs(old(events), gone) by {
          if pod.controller.None? { assert gone == {key}; }
        }
        return;
      }
      var reason := t.value.reason;
      if key in pods && reason in pods[key] && pods[key][reason].container == t.value.container { return SILENT; }
      if key !in pods {
        pods := pods[key := map[]];
      }
      pods := pods[key := pods[key][reason := PodCond(t.value.detail, t.value.container, true)]];
      assert pods == Track(old(pods), key, reason, PodCond(t.value.detail, t.value.container, true));
      return Out({(key, reason)}, {});
    }

    method OnPodAdd(pod: Pod, initial: bool) returns (out: Out)
      modifies this
      ensures (Abs(), out) == AddPod(old(Abs()), pod, initial)
    {
      if initial && pod.namespace !in tornDown {
        SeedPodBaseline(pod);
        return SILENT;
      }
      out := OnPodChange(pod);
    }

    method OnPodDelete(pod: Pod) returns (out: Out)
      modifies this
      ensures (Abs(), out) == DeletePod(old(Abs()), pod)
    {
      var key := PodKey(pod);
      var told := NarratedReasons(key, At(pods, key));
      pods := pods - {key};
      var resolved := ResolveEvents(key, true);
      out := Out({}, told + resolved);
    }

    // ---- events ----

    method SeedEventBaseline(ev: KubeEvent)
      modifies this
      ensures Abs() == SeedEvent(old(Abs()), ev)
    {
      if !ev.warning { return; }
      if ev.namespace in entries {
        var key := InvolvedKey(ev);
        if key !in events {
          events := events[key := map[]];
        }
        events := events[key := events[key][ev.reason := EventCond(ev.container, false)]];
      }
    }

    /** The first hold; the pull against the pod cache is the next one, once this is published. */
    method OnEventChange(ev: KubeEvent) returns (out: Out)
      modifies this
      ensures (Abs(), out) == ChangeEvent(old(Abs()), ev)
    {
      if !ev.warning { return SILENT; }
      var key := InvolvedKey(ev);
      if ev.namespace !in entries { return SILENT; }
      if key in events && ev.reason in events[key] { return SILENT; }
      if key !in events {
        events := events[key := map[]];
      }
      events := events[key := events[key][ev.reason := EventCond(ev.container, true)]];
      assert events == Track(old(events), key, ev.reason, EventCond(ev.container, true));
      return Out({(key, ev.reason)}, {});
    }

    /** cached is the pod the informer cache holds right now, if any: unknown is not healthy. */
    method Corroborate(key: Key, cached: Option<Pod>) returns (out: Out)
      modifies this
      ensures (Abs(), out) == if key.kind == POD && cached.Some? &&
              PodTrouble(cached.value).None? then PullEvent(old(Abs()), key)
                              else (old(Abs()), SILENT)
    {
      if key.kind != POD || cached.None? { return SILENT; }
      var t := FindTrouble(cached.value);
      if t.Some? { return SILENT; }
      var resolved := ResolveEvents(key, false);
      return Out({}, resolved);
    }

    method OnEventAdd(ev: KubeEvent, initial: bool) returns (out: Out)
      modifies this
      ensures (Abs(), out) == AddEvent(old(Abs()), ev, initial)
    {
      if initial && ev.namespace !in tornDown {
        SeedEventBaseline(ev);
        return SILENT;
      }
      out := OnEventChange(ev);
    }

    method OnEventDelete(ev: KubeEvent)
      modifies this
      ensures Abs() == ExpireEvent(old(Abs()), ev)
    {
      var key := InvolvedKey(ev);
      if key in events {
        events := events[key := events[key] - {ev.reason}];
        if |events[key]| == 0 {
          events := events - {key};
        }
      }
    }

    // ---- scope ----

    method ClearNamespacePods(ns: string)
      modifies `pods
      ensures pods == WithoutNamespaces(old(pods), {ns})
    {
      var keys := pods.Keys;
      while keys != {}
        invariant keys <= old(pods).Keys
        invariant pods == map k | k in old(pods) && (k in keys || k.namespace != ns) :: old(pods)[k]
        decreases |keys|
      {
        var k :| k in keys;
        if k.namespace == ns {
          pods := pods - {k};
        }
        keys := keys - {k};
      }
    }

    method ClearNamespaceEvents(ns: string)
      modifies `events
      ensures events == WithoutNamespaces(old(events), {ns})
    {
      var keys := events.Keys;
      while keys != {}
        invariant keys <= old(events).Keys
        invariant events == map k | k in old(events) && (k in keys || k.namespace != ns) :: old(events)[k]
        decreases |keys|
      {
        var k :| k in keys;
        if k.namespace == ns {
          events := events - {k};
        }
        keys := keys - {k};
      }
    }

    method StopNamespace(ns: string)
      requires ns in entries
      modifies this
      ensures Abs() == StopNamespaces(old(Abs()), {ns})
    {
      assert {ns} * entries.Keys == {ns};
      entries := entries - {ns};
      tornDown := tornDown + {ns};
      ClearNamespacePods(ns);
      ClearNamespaceEvents(ns);
    }

    /** Stops every live namespace of gone, in whatever order they come. */
    method StopEach(gone: set<string>)
      requires gone <= entries.Keys
      modifies this
      ensures Abs() == StopNamespaces(old(Abs()), gone)
    {
      var left := gone;
      StopNone(Abs());
      while left != {}
        invariant left <= gone && left <= entries.Keys
        invariant Abs() == StopNamespaces(old(Abs()), gone - left)
        decreases |left|
      {
        var ns :| ns in left;
        StopTwice(old(Abs()), gone - left, {ns});
        StopNamespace(ns);
        assert gone - (left - {ns}) == gone - left + {ns};
        left := left - {ns};
      }
      assert gone - {} == gone;
    }

    method Reconcile(sc: Scope)
      modifies this
      ensures Reconciled(old(Abs()), Abs(), sc)
    {
      if sc.runId == "" || |sc.namespaces| == 0 || sc.terminal {
        StopEach(entries.Keys);
        runId := "";
        return;
      }
      if runId != sc.runId {
        StopEach(entries.Keys);
        runId := sc.runId;
      }
      assert Abs() == Switch(old(Abs()), sc.runId);
      if sc.runId != tornRun {
        tornDown := {};
        tornRun := sc.runId;
      }
      assert Abs() == Attribute(Switch(old(Abs()), sc.runId), sc.runId);
      StopEach(entries.Keys - sc.namespaces);
      StartMissing(sc.namespaces);
    }

    /** Starts an informer pair for every namespace that has none. */
    method StartMissing(namespaces: set<string>)
      modifies `entries, `started
      ensures StartsMissing(old(Abs()), Abs(), namespaces)
    {
      ghost var settled := Abs();
      var wanted := namespaces;
      while wanted != {}
        invariant wanted <= namespaces
        invariant StartsMissing(settled, Abs(), namespaces - wanted)
        decreases |wanted|
      {
        var ns :| ns in wanted;
        if ns !in entries {
          entries := entries[ns := started];
          started := started + 1;
        }
        wanted := wanted - {ns};
      }
      assert namespaces - {} == namespaces;
    }

    method Stop()
      modifies this
      ensures Abs() == StopNamespaces(old(Abs()), old(entries).Keys).(runId := "")
    {
      StopEach(entries.Keys);
      runId := "";
    }
  }
}
