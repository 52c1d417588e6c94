/**
 * Which of two reports of one condition wins: the rule in Go over instants, the same rule in the
 * browser over their text, and the fold that keeps one entry per condition.
 */
module Conditions {
  import opened Wrappers
  import opened Ordering
  import opened Timestamps
  import opened Folding

  /** A condition as the server holds it; rest is everything precedence does not look at. */
  datatype ClusterData = ClusterData(uid: string, reason: string, severity: int, resolved: bool, at: Instant,
    rest: string)

  /** The same as the browser receives it. */
  datatype Seen = Seen(uid: string, reason: string, severity: int, resolved: bool, at: string, rest: string)

  function Sent(d: ClusterData): Seen { Seen(d.uid, d.reason, d.severity, d.resolved, Text(d.at), d.rest) }

  predicate SameCondition(a: ClusterData, b: ClusterData) { a.uid == b.uid && a.reason == b.reason }

  /** The reference rule: later wins; on one instant a resolution wins, then the higher severity. */
  predicate Supersedes(d: ClusterData, prev: ClusterData) {
    if d.uid != prev.uid || d.reason != prev.reason then false
    else if Nanos(d.at) != Nanos(prev.at) then Nanos(d.at) > Nanos(prev.at)
    else if d.resolved != prev.resolved then d.resolved
    else d.severity > prev.severity
  }

  predicate SeenSupersedes(next: Seen, prev: Seen) {
    if next.uid != prev.uid || next.reason != prev.reason then false
    else if CompareAt(next.at, prev.at) != 0 then CompareAt(next.at, prev.at) > 0
    else if next.resolved != prev.resolved then next.resolved
    else next.severity > prev.severity
  }

  /** The two implementations decide alike on everything the server can send. */
  lemma RulesAgree(d: ClusterData, prev: ClusterData)
    requires Valid(d.at) && Valid(prev.at)
    ensures SeenSupersedes(Sent(d), Sent(prev)) <==> Supersedes(d, prev)
  {
    CompareAtAgrees(d.at, prev.at);
  }

  /** Per condition the rule is a strict order whose ties differ in nothing it looks at. */
  lemma StrictPerCondition(a: ClusterData, b: ClusterData, c: ClusterData)
    ensures !Supersedes(a, a)
    ensures Supersedes(a, b) ==> !Supersedes(b, a)
    ensures Supersedes(a, b) && Supersedes(b, c) ==> Supersedes(a, c)
    ensures SameCondition(a, b) && !Supersedes(a, b) && !Supersedes(b, a) <==>
              SameCondition(a, b) && Nanos(a.at) == Nanos(b.at) && a.resolved == b.resolved && a.severity == b.severity
  {
  }

  lemma NotSupersededChains(a: ClusterData, b: ClusterData, c: ClusterData)
    requires SameCondition(a, b) && SameCondition(b, c) && !Supersedes(b, a) && !Supersedes(c, b)
    ensures !Supersedes(c, a)
  {
  }

  // ---- the fold ----

  /** A condition and the row it renders under, once it has one. */
  datatype Placed = Placed(data: Seen, component: Option<string>)

  datatype ClusterEvent = ClusterEvent(data: ClusterData, component: Option<string>)

  /** What the observer can send: a civil instant, and a UID with no colon in it. */
  type Report = e: ClusterEvent | Valid(e.data.at) && ':' !in e.data.uid
    witness ClusterEvent(ClusterData("", "", 0, false, Instant(0, 1, 1, 0, 0, 0, 0), ""), None)

  function ConditionKey(uid: string, reason: string): string { uid + "::" + reason }

  /** The keys of two conditions coincide only if the conditions do, a UID having no colon in it. */
  lemma KeysTell(u: string, r: string, v: string, q: string)
    requires ':' !in u && ':' !in v && ConditionKey(u, r) == ConditionKey(v, q)
    ensures u == v && r == q
  {
    var k := ConditionKey(u, r);
    assert k[|u|] == ':' && k[|v|] == ':';
    assert forall i :: 0 <= i < |u| ==> k[i] == u[i] && u[i] in u;
    assert forall i :: 0 <= i < |v| ==> k[i] == v[i] && v[i] in v;
    assert |u| == |v|;
    assert k[..|u|] == u && k[..|v|] == v;
    assert k[|u| + 2..] == r && k[|v| + 2..] == q;
  }

  function KeyOf(e: Report): string { ConditionKey(e.data.uid, e.data.reason) }

  predicate Beats(e: Report, prev: Report) { Supersedes(e.data, prev.data) }

  lemma BeatsIsPrecedence()
    ensures Precedence(KeyOf, Beats)
  {
    forall a: Report, b: Report, c: Report | KeyOf(a) == KeyOf(b) == KeyOf(c) && !Beats(b, a) && !Beats(c, b)
      ensures !Beats(c, a)
    {
      KeysTell(a.data.uid, a.data.reason, b.data.uid, b.data.reason);
      KeysTell(b.data.uid, b.data.reason, c.data.uid, c.data.reason);
      NotSupersededChains(a.data, b.data, c.data);
    }
  }

  function Folded1(tracked: map<string, Placed>, e: Report): map<string, Placed> {
    var c := Sent(e.data);
    var key := ConditionKey(c.uid, c.reason);
    if key in tracked && !SeenSupersedes(c, tracked[key].data) then tracked
    else
      tracked[key := Placed(c, if key in tracked &&
        tracked[key].component.Some? then tracked[key].component else e.component)]
  }

  function Folded(events: seq<Report>): map<string, Placed> {
    if events == [] then map[] else Folded1(Folded(events[..|events| - 1]), events[|events| - 1])
  }

  method FoldEvents(events: seq<Report>) returns (tracked: map<string, Placed>)
    ensures tracked == Folded(events)
  {
    tracked := map[];
    for i := 0 to |events|
      invariant tracked == Folded(events[..i])
    {
      assert events[..i + 1][..i] == events[..i];
      var c := Sent(events[i].data);
      var key := ConditionKey(c.uid, c.reason);
      if !(key in tracked && !SeenSupersedes(c, tracked[key].data)) {
        var component := if key in tracked &&
          tracked[key].component.Some? then tracked[key].component else events[i].component;
        tracked := tracked[key := Placed(c, component)];
      }
    }
    assert events[..|events|] == events;
  }

  /** tracked holds, for the browser, exactly the reports kept. */
  predicate Shows(tracked: map<string, Placed>, kept: map<string, Report>) {
    tracked.Keys == kept.Keys && forall k :: k in tracked ==> tracked[k].data == Sent(kept[k].data)
  }

  lemma FoldStep(tracked: map<string, Placed>, kept: map<string, Report>, e: Report)
    requires Shows(tracked, kept)
    ensures Shows(Folded1(tracked, e), Keep1(KeyOf, Beats, kept, e))
  {
    hide Nanos, Text, CompareAt;
    var k := KeyOf(e);
    if k in kept {
      RulesAgree(e.data, kept[k].data);
    }
  }

  /** The browser's fold over text keeps what the reference rule keeps over instants. */
  lemma {:induction false} FoldKeeps(events: seq<Report>)
    ensures Shows(Folded(events), Keep(KeyOf, Beats, events))
  {
    if events != [] {
      FoldKeeps(events[..|events| - 1]);
      FoldStep(Folded(events[..|events| - 1]), Keep(KeyOf, Beats, events[..|events| - 1]), events[|events| - 1]);
    }
  }

  /** What the fold ends with for a condition is a report of it that no other report supersedes. */
  lemma FoldKeepsWinner(events: seq<Report>, k: string)
    requires k in Folded(events)
    ensures exists w: Report :: w in events && Folded(events)[k].data == Sent(w.data) && KeyOf(w) == k
                                && forall e :: e in events ==> !Supersedes(e.data, w.data)
  {
    BeatsIsPrecedence();
    FoldKeeps(events);
    KeepWins(KeyOf, Beats, events);
    var w := Keep(KeyOf, Beats, events)[k];
    forall e | e in events ensures !Supersedes(e.data, w.data) { assert !Beats(e, w); }
  }

  /**
   * Of its reports, w is the one to keep: none is of a later instant; of those at its own instant it is
   * a resolution if any is; and of those that agree on that, none is more severe.
   */
  predicate Latest(events: seq<Report>, w: Report) {
    && w in events
    && forall e: Report :: e in events && e.data.uid == w.data.uid && e.data.reason == w.data.reason ==>
         && Nanos(e.data.at) <= Nanos(w.data.at)
         && (Nanos(e.data.at) == Nanos(w.data.at) && e.data.resolved ==> w.data.resolved)
         && (Nanos(e.data.at) == Nanos(w.data.at) && e.data.resolved == w.data.resolved ==>
               e.data.severity <= w.data.severity)
  }

  /** Every condition reported is shown, as the latest of its reports and as nothing else. */
  lemma FoldShowsLatest(events: seq<Report>, k: string)
    ensures k in Folded(events) <==> exists e: Report :: e in events && ConditionKey(e.data.uid, e.data.reason) == k
    ensures k in Folded(events) ==>
              exists w: Report :: Latest(events, w) && ConditionKey(w.data.uid, w.data.reason) == k &&
                Folded(events)[k].data == Seen(w.data.uid, w.data.reason, w.data.severity, w.data.resolved,
                  Text(w.data.at), w.data.rest)
  {
    BeatsIsPrecedence();
    FoldKeeps(events);
    KeepWins(KeyOf, Beats, events);
    forall e: Report | e in events ensures KeyOf(e) in Folded(events) {}
    if k in Folded(events) {
      var w := Keep(KeyOf, Beats, events)[k];
      forall e: Report | e in events ensures !Supersedes(e.data, w.data) { assert !Beats(e, w); }
      assert Latest(events, w) && KeyOf(w) == k;
    }
  }

  /**
   * A condition is on a row some report of it named; and it is on none only if the report it shows
   * names none.
   */
  lemma {:induction false} PlacementIsReported(events: seq<Report>, k: string)
    requires k in Folded(events)
    ensures Folded(events)[k].component.Some? ==>
              exists e: Report :: e in events && KeyOf(e) == k && e.component == Folded(events)[k].component
    ensures Folded(events)[k].component.None? ==>
              exists e: Report :: e in events && KeyOf(e) == k && e.component.None? &&
                Folded(events)[k].data == Sent(e.data)
  {
    var n := |events| - 1;
    var before, last := events[..n], events[n];
    assert events == before + [last];
    if k in Folded(before) {
      PlacementIsReported(before, k);
      if Folded(events)[k] == Folded(before)[k] {
        if Folded(before)[k].component.Some? {
          var e: Report :| e in before && KeyOf(e) == k && e.component == Folded(before)[k].component;
          assert e in events;
        } else {
          var e: Report :| e in before && KeyOf(e) == k && e.component.None? && Folded(before)[k].data == Sent(e.data);
          assert e in events;
        }
      } else if Folded(before)[k].component.Some? {
        var e: Report :| e in before && KeyOf(e) == k && e.component == Folded(before)[k].component;
        assert e in events;
      }
    }
    assert last in events;
  }

  /**
   * However the same reports are ordered, the fold ends with the same conditions, each at the same
   * instant, resolution and severity.
   */
  lemma FoldIgnoresOrder(a: seq<Report>, b: seq<Report>, k: string)
    requires multiset(a) == multiset(b)
    ensures k in Folded(a) <==> k in Folded(b)
    ensures k in Folded(a) ==>
              var x, y := Folded(a)[k].data, Folded(b)[k].data;
              x.uid == y.uid && x.reason == y.reason && CompareAt(x.at, y.at) == 0 && x.resolved == y.resolved &&
                x.severity == y.severity
  {
    BeatsIsPrecedence();
    FoldKeeps(a);
    FoldKeeps(b);
    KeepIgnoresOrder(KeyOf, Beats, a, b, k);
    if k in Folded(a) {
      TiesAgree(Keep(KeyOf, Beats, a)[k], Keep(KeyOf, Beats, b)[k]);
    }
  }

  lemma TiesAgree(x: Report, y: Report)
    requires KeyOf(x) == KeyOf(y) && !Beats(x, y) && !Beats(y, x)
    ensures var a, b := Sent(x.data), Sent(y.data);
            a.uid == b.uid && a.reason == b.reason && CompareAt(a.at, b.at) == 0 && a.resolved == b.resolved &&
              a.severity == b.severity
  {
    KeysTell(x.data.uid, x.data.reason, y.data.uid, y.data.reason);
    CompareAtAgrees(x.data.at, y.data.at);
  }

  /** Once a condition has a row it never leaves it, whatever supersedes it later. */
  lemma PlacementSticks(tracked: map<string, Placed>, e: Report, k: string)
    requires k in tracked && tracked[k].component.Some?
    ensures k in Folded1(tracked, e) && Folded1(tracked, e)[k].component == tracked[k].component
  {
  }

  // ---- what a row shows ----

  /** c outranks b on a row: more severe, or as severe and later. */
  predicate Outranks(c: Seen, b: Seen) {
    c.severity > b.severity || (c.severity == b.severity && CompareAt(c.at, b.at) > 0)
  }

  predicate Dated(c: Seen, t: Instant) { Valid(t) && c.at == Text(t) }

  lemma OutranksChains(tx: Instant, ty: Instant, tz: Instant, x: Seen, y: Seen, z: Seen)
    requires Dated(x, tx) && Dated(y, ty) && Dated(z, tz)
    requires !Outranks(x, y) && Outranks(z, y)
    ensures Outranks(z, x)
  {
    hide CompareAt, Text, Nanos;
    CompareAtAgrees(tx, ty);
    CompareAtAgrees(tz, ty);
    CompareAtAgrees(tz, tx);
  }

  ghost predicate AllDated(conditions: seq<Seen>) {
    forall i :: 0 <= i < |conditions| ==> exists t :: Dated(conditions[i], t)
  }

  lemma OutranksChainsIn(conditions: seq<Seen>, x: Seen, y: Seen, z: Seen)
    requires AllDated(conditions) && x in conditions && y in conditions && z in conditions
    requires !Outranks(x, y) && Outranks(z, y)
    ensures Outranks(z, x)
  {
    var tx :| Dated(x, tx);
    var ty :| Dated(y, ty);
    var tz :| Dated(z, tz);
    OutranksChains(tx, ty, tz, x, y, z);
  }

  lemma OutranksOneWay(tx: Instant, ty: Instant, x: Seen, y: Seen)
    requires Dated(x, tx) && Dated(y, ty) && Outranks(x, y)
    ensures !Outranks(y, x)
  {
    CompareAtAgrees(tx, ty);
    CompareAtAgrees(ty, tx);
  }

  /**
   * The i-th condition is the one to show: unresolved, above every unresolved one before it and not
   * below any after it.
   */
  predicate ShownAt(conditions: seq<Seen>, i: int) {
    && 0 <= i < |conditions| && !conditions[i].resolved
    && (forall j :: 0 <= j < i && !conditions[j].resolved ==> Outranks(conditions[i], conditions[j]))
    && (forall j :: i < j < |conditions| && !conditions[j].resolved ==> !Outranks(conditions[j], conditions[i]))
  }

  /** What the scan has come to. */
  predicate BestOf(conditions: seq<Seen>, best: Option<Seen>) {
    match best
    case None => forall c :: c in conditions ==> c.resolved
    case Some(b) => exists i :: 0 <= i < |conditions| && conditions[i] == b && ShownAt(conditions, i)
  }

  /** A condition above the best so far is above all before it. */
  lemma TakesOver(conditions: seq<Seen>, k: int, i: int)
    requires AllDated(conditions) && 0 <= i < k < |conditions| && ShownAt(conditions[..k], i)
    requires !conditions[k].resolved && Outranks(conditions[k], conditions[i])
    ensures ShownAt(conditions[..k + 1], k)
  {
    hide Outranks, AllDated;
    forall j | 0 <= j < k && !conditions[j].resolved ensures Outranks(conditions[k], conditions[j]) {
      assert conditions[..k][j] == conditions[j] && conditions[..k][i] == conditions[i];
      if j < i { OutranksOneWayIn(conditions, conditions[i], conditions[j]); }
      if j != i { OutranksChainsIn(conditions, conditions[j], conditions[i], conditions[k]); }
    }
  }

  /** Any other leaves it standing. */
  lemma Stands(conditions: seq<Seen>, k: int, i: int)
    requires 0 <= i < k < |conditions| && ShownAt(conditions[..k], i)
    requires conditions[k].resolved || !Outranks(conditions[k], conditions[i])
    ensures ShownAt(conditions[..k + 1], i)
  {
    hide Outranks;
    forall j | 0 <= j < k ensures conditions[..k + 1][j] == conditions[..k][j] {}
  }

  /** The scan's next step: only a condition above the best so far takes its place. */
  lemma ScanKeeps(conditions: seq<Seen>, k: int, best: Option<Seen>)
    requires AllDated(conditions) && 0 <= k < |conditions| && BestOf(conditions[..k], best)
    ensures var c := conditions[k];
            BestOf(conditions[..k + 1], if !c.resolved &&
              (best.None? || Outranks(c, best.value)) then Some(c) else best)
  {
    hide Outranks, ShownAt, AllDated;
    var c, before, after := conditions[k], conditions[..k], conditions[..k + 1];
    assert after == before + [c];
    if best.Some? {
      var i :| 0 <= i < |before| && before[i] == best.value && ShownAt(before, i);
      assert after[i] == before[i] && after[k] == c;
      if !c.resolved && Outranks(c, best.value) { TakesOver(conditions, k, i); } else { Stands(conditions, k, i); }
    } else if !c.resolved {
      assert after[k] == c;
      FirstUnresolved(after, k);
    }
  }

  lemma FirstUnresolved(conditions: seq<Seen>, k: int)
    requires |conditions| == k + 1 && k >= 0 && !conditions[k].resolved && forall c :: c in conditions[..k] ==>
             c.resolved
    ensures ShownAt(conditions, k)
  {
    forall j | 0 <= j < k ensures conditions[j].resolved { assert conditions[j] in conditions[..k]; }
  }

  lemma OutranksOneWayIn(conditions: seq<Seen>, x: Seen, y: Seen)
    requires AllDated(conditions) && x in conditions && y in conditions && Outranks(x, y)
    ensures !Outranks(y, x)
  {
    var tx :| Dated(x, tx);
    var ty :| Dated(y, ty);
    OutranksOneWay(tx, ty, x, y);
  }

  /** No unresolved condition is more severe than the one shown, nor as severe and later. */
  predicate WorstOf(conditions: seq<Seen>, best: Seen) {
    && best in conditions && !best.resolved
    && forall c :: c in conditions && !c.resolved ==>
         c.severity <= best.severity && (c.severity == best.severity ==> CompareAt(c.at, best.at) <= 0)
  }

  lemma ShownIsWorst(conditions: seq<Seen>, i: int)
    requires AllDated(conditions) && ShownAt(conditions, i)
    ensures WorstOf(conditions, conditions[i])
  {
    var best := conditions[i];
    forall c | c in conditions && !c.resolved
      ensures c.severity <= best.severity && (c.severity == best.severity ==> CompareAt(c.at, best.at) <= 0)
    {
      var j :| 0 <= j < |conditions| && conditions[j] == c;
      if j < i { OutranksOneWayIn(conditions, best, c); }
      if j == i { SameIsNotLater(conditions, c); }
    }
  }

  lemma SameIsNotLater(conditions: seq<Seen>, c: Seen)
    requires AllDated(conditions) && c in conditions
    ensures CompareAt(c.at, c.at) == 0
  {
    var t :| Dated(c, t);
    CompareAtAgrees(t, t);
  }

  /** The one unresolved condition a row displays, if it has any: the first of those none outranks. */
  method ActiveCondition(conditions: seq<Seen>) returns (best: Option<Seen>)
    requires AllDated(conditions)
    ensures best.None? <==> forall c :: c in conditions ==> c.resolved
    ensures best.Some? ==> exists i :: 0 <= i < |conditions| && best.value == conditions[i] && ShownAt(conditions, i)
    ensures best.Some? ==> WorstOf(conditions, best.value)
  {
    best := None;
    for k := 0 to |conditions|
      invariant BestOf(conditions[..k], best)
    {
      var c := conditions[k];
      ScanKeeps(conditions, k, best);
      if !c.resolved {
        if best.None? || Outranks(c, best.value) {
          best := Some(c);
        }
      }
    }
    assert conditions[..|conditions|] == conditions;
    if best.Some? {
      var i :| 0 <= i < |conditions| && conditions[i] == best.value && ShownAt(conditions, i);
      ShownIsWorst(conditions, i);
    }
  }
}
