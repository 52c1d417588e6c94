/**
 * What Apply records before and while it installs: the snapshot of what already existed, one row
 * per component, and the refusal to install over a hazard.
 */
module Ownerships {
  import opened Wrappers
  import opened Runs
  import opened Ordering

  /** What one namespace answered: helm's list, and whether the namespace itself was found. */
  datatype Existence = Found | Absent | Unreadable
  datatype Probe = Probe(releases: Option<seq<string>>, existence: Existence)

  const NO_CLIENT_ERR := "no cluster client in this process, so nothing could be observed"
  const LIST_ERR := "listing helm releases failed"
  const READ_ERR := "reading the namespace failed"

  /** Adjacent duplicates collapsed. */
  function Compact(s: seq<string>): seq<string> {
    if |s| < 2 then s
    else if s[0] == s[1] then Compact(s[1..])
    else [s[0]] + Compact(s[1..])
  }

  lemma {:induction false} CompactSame(s: seq<string>)
    ensures forall x :: x in Compact(s) <==> x in s
    ensures s != [] ==> Compact(s) != [] && Compact(s)[0] == s[0]
  {
    if |s| >= 2 {
      CompactSame(s[1..]);
      assert s == [s[0]] + s[1..];
      assert s[1..][0] == s[1];
    }
  }

  predicate Increasing(s: seq<string>) { forall i, j :: 0 <= i < j < |s| ==> Less(s[i], s[j]) }

  lemma {:induction false} CompactIncreases(s: seq<string>)
    requires Sorted(Less, s)
    ensures Increasing(Compact(s))
  {
    if |s| >= 2 {
      CompactIncreases(s[1..]);
      CompactSame(s[1..]);
      var rest := Compact(s[1..]);
      if s[0] != s[1] {
        forall j | 0 <= j < |rest| ensures Less(s[0], rest[j]) {
          assert rest[j] in s[1..];
          var k :| 1 <= k < |s| && s[k] == rest[j];
          LessTotal(s[0], s[1]);
          LessTotal(s[1], s[k]);
          assert !Less(s[1], s[0]) && (k == 1 || !Less(s[k], s[1]));
          if k > 1 && Less(s[1], s[k]) { LessTransitive(s[0], s[1], s[k]); }
        }
      }
    }
  }

  function SnapshotNames(namespaces: seq<string>): seq<string> { Compact(Sort(Less, namespaces)) }

  lemma SnapshotNamesSorted(namespaces: seq<string>)
    ensures Increasing(SnapshotNames(namespaces))
    ensures forall ns :: ns in SnapshotNames(namespaces) <==> ns in namespaces
  {
    StringOrder();
    SortSorts(Less, namespaces);
    CompactIncreases(Sort(Less, namespaces));
    CompactSame(Sort(Less, namespaces));
    forall ns ensures ns in Sort(Less, namespaces) <==> ns in namespaces { SortHas(Less, namespaces, ns); }
  }

  function RefOf(clients: bool, ns: string, p: Probe): NamespaceRef {
    NamespaceRef(ns, clients && p.releases.Some? && p.existence.Found?,
                 if !clients then NO_CLIENT_ERR
                 else if p.releases.None? then LIST_ERR
                 else if p.existence.Unreadable? then READ_ERR
                 else "")
  }

  function Refs(ns: string,
    names: seq<string>): seq<ReleaseRef> { seq(|names|, i requires 0 <= i < |names| => ReleaseRef(names[i], ns)) }

  /** Fail-closed: a namespace with an error contributes no releases at all. */
  function SnapshotOf(clients: bool, probe: string -> Probe, names: seq<string>): Ownership {
    if names == [] then NO_OWNERSHIP
    else
      var ns := names[|names| - 1];
      var before := SnapshotOf(clients, probe, names[..|names| - 1]);
      var ref := RefOf(clients, ns, probe(ns));
      Ownership(before.releases + (if ref.snapshotErr == "" then Refs(ns,
        Sort(Less, probe(ns).releases.value)) else []),
                before.namespaces + [ref])
  }

  method SnapshotOwnership(clients: bool, probe: string -> Probe, namespaces: seq<string>) returns (own: Ownership)
    ensures own == SnapshotOf(clients, probe, SnapshotNames(namespaces))
  {
    var names := SnapshotNames(namespaces);
    own := NO_OWNERSHIP;
    for i := 0 to |names|
      invariant own == SnapshotOf(clients, probe, names[..i])
    {
      var ns := names[i];
      var ref := NamespaceRef(ns, false, "");
      var releases: seq<string> := [];
      if !clients {
        ref := ref.(snapshotErr := NO_CLIENT_ERR);
      } else if probe(ns).releases.None? {
        ref := ref.(snapshotErr := LIST_ERR);
      } else {
        match probe(ns).existence
        case Absent => releases := Sort(Less, probe(ns).releases.value);
        case Unreadable => ref := ref.(snapshotErr := READ_ERR);
        case Found =>
          releases := Sort(Less, probe(ns).releases.value);
          ref := ref.(existed := true);
      }
      assert names[..i + 1][..i] == names[..i];
      own := Ownership(own.releases + Refs(ns, releases), own.namespaces + [ref]);
    }
    assert names[..|names|] == names;
  }

  // ---- what a snapshot is evidence of ----

  /** A namespace the snapshot names. */
  predicate Recorded(own: Ownership, ns: string) {
    exists i :: 0 <= i < |own.namespaces| && own.namespaces[i].name == ns
  }

  /** One whose before-state could not be recorded. */
  predicate Unprovable(own: Ownership, ns: string) {
    exists i :: 0 <= i < |own.namespaces| && own.namespaces[i].name == ns && own.namespaces[i].snapshotErr != ""
  }

  /** A probe whose list, when it has one, is the cluster's. */
  ghost predicate Honest(probe: string -> Probe, ns: string, cluster: set<ReleaseRef>) {
    probe(ns).releases.Some? ==> forall n :: n in probe(ns).releases.value <==> ReleaseRef(n, ns) in cluster
  }

  /** One more namespace at the end. */
  lemma OneMore(before: seq<NamespaceRef>, ref: NamespaceRef, releases: seq<ReleaseRef>, later: seq<ReleaseRef>,
    ns: string)
    ensures var a, b := Ownership(releases, before), Ownership(later, before + [ref]);
            && (Recorded(b, ns) <==> Recorded(a, ns) || ns == ref.name)
            && (Unprovable(b, ns) <==> Unprovable(a, ns) || (ns == ref.name && ref.snapshotErr != ""))
            && (Unprovable(a, ns) ==> Recorded(a, ns))
  {
    var all := before + [ref];
    assert all[|before|] == ref;
    forall i | 0 <= i < |before| ensures all[i] == before[i] {}
  }

  /**
   * Over the namespaces it was asked about, a snapshot of an honest cluster lists exactly the
   * releases of the provable ones, and says of each namespace whether it is one.
   */
  ghost predicate IsEvidence(clients: bool, probe: string -> Probe, names: seq<string>, cluster: set<ReleaseRef>,
    own: Ownership) {
    && (forall ns :: Recorded(own, ns) <==> ns in names)
    && (forall ns :: Unprovable(own, ns) <==>
          ns in names && (!clients || probe(ns).releases.None? || probe(ns).existence.Unreadable?))
    && (forall i :: 0 <= i < |own.namespaces| ==>
          (own.namespaces[i].existed <==>
             own.namespaces[i].snapshotErr == "" && probe(own.namespaces[i].name).existence.Found?))
    && (forall r :: r in own.releases <==> r in cluster && r.namespace in names && !Unprovable(own, r.namespace))
  }

  lemma {:induction false} SnapshotIsEvidence(clients: bool, probe: string -> Probe, names: seq<string>,
    cluster: set<ReleaseRef>)
    requires Increasing(names) && forall i :: 0 <= i < |names| ==> Honest(probe, names[i], cluster)
    ensures IsEvidence(clients, probe, names, cluster, SnapshotOf(clients, probe, names))
  {
    if names != [] {
      var n := |names| - 1;
      var ns := names[n];
      var before := SnapshotOf(clients, probe, names[..n]);
      var own := SnapshotOf(clients, probe, names);
      var ref := RefOf(clients, ns, probe(ns));
      SnapshotIsEvidence(clients, probe, names[..n], cluster);
      assert names == names[..n] + [ns];
      assert ns !in names[..n] by { LessIrreflexive(ns); }
      forall x
        ensures Recorded(own, x) <==> x in names
        ensures Unprovable(own, x) <==>
                  x in names && (!clients || probe(x).releases.None? || probe(x).existence.Unreadable?)
        ensures Unprovable(own, x) <==> Unprovable(before, x) || (x == ns && ref.snapshotErr != "")
      {
        OneMore(before.namespaces, ref, before.releases, own.releases, x);
      }
      if ref.snapshotErr == "" {
        RefsHave(ns, probe(ns).releases.value, cluster);
      }
    } else {
      assert SnapshotOf(clients, probe, names) == NO_OWNERSHIP;
    }
  }

  lemma RefsHave(ns: string, listed: seq<string>, cluster: set<ReleaseRef>)
    requires forall n :: n in listed <==> ReleaseRef(n, ns) in cluster
    ensures forall r :: r in Refs(ns, Sort(Less, listed)) <==> r in cluster && r.namespace == ns
  {
    StringOrder();
    var sorted := Sort(Less, listed);
    forall n ensures n in sorted <==> n in listed { SortHas(Less, listed, n); }
    forall r ensures r in Refs(ns, sorted) <==> r in cluster && r.namespace == ns {
      if r in cluster && r.namespace == ns {
        assert r == ReleaseRef(r.name, ns) && r.name in sorted;
        var i :| 0 <= i < |sorted| && sorted[i] == r.name;
        assert Refs(ns, sorted)[i] == r;
      }
    }
  }

  // ---- one row per component ----

  datatype Marker = Marker(name: string, index: int, total: int, namespace: string, status: string)

  /** A later marker updates its row, carrying the header's values forward where it has none. */
  function Merge(row: ComponentState, m: Marker): ComponentState {
    ComponentState(row.name, if m.index != 0 then m.index else row.index, if m.total != 0 then m.total else row.total,
                   if m.namespace != "" then m.namespace else row.namespace, m.status)
  }

  predicate UniqueNames(rows: seq<ComponentState>) {
    forall i, j :: 0 <= i < j < |rows| ==> rows[i].name != rows[j].name
  }

  predicate HasRow(rows: seq<ComponentState>, name: string, ns: string) {
    exists i :: 0 <= i < |rows| && rows[i].name == name && rows[i].namespace == ns
  }

  function Upserted(rows: seq<ComponentState>, m: Marker): seq<ComponentState> {
    if rows == [] then [ComponentState(m.name, m.index, m.total, m.namespace, m.status)]
    else if rows[0].name == m.name then [Merge(rows[0], m)] + rows[1..]
    else [rows[0]] + Upserted(rows[1..], m)
  }

  lemma {:induction false} UpsertSkips(rows: seq<ComponentState>, i: nat, m: Marker)
    requires i <= |rows| && forall j :: 0 <= j < i ==> rows[j].name != m.name
    ensures Upserted(rows, m) == rows[..i] + Upserted(rows[i..], m)
  {
    if i > 0 {
      UpsertSkips(rows[1..], i - 1, m);
      assert rows[1..][i - 1..] == rows[i..];
      assert rows[..i] == [rows[0]] + rows[1..][..i - 1];
    } else {
      assert rows[0..] == rows;
    }
  }

  method UpsertComponent(rows: seq<ComponentState>, m: Marker) returns (out: seq<ComponentState>)
    ensures out == Upserted(rows, m)
  {
    for i := 0 to |rows|
      invariant forall j :: 0 <= j < i ==> rows[j].name != m.name
    {
      if rows[i].name == m.name {
        UpsertSkips(rows, i, m);
        var row := rows[i].(status := m.status);
        if m.index != 0 { row := row.(index := m.index); }
        if m.total != 0 { row := row.(total := m.total); }
        if m.namespace != "" { row := row.(namespace := m.namespace); }
        assert row == Merge(rows[i], m);
        return rows[i := row];
      }
    }
    UpsertSkips(rows, |rows|, m);
    return rows + [ComponentState(m.name, m.index, m.total, m.namespace, m.status)];
  }

  /** A marker keeps one row per component: its own merged in or appended, every other as it was. */
  lemma {:induction false} UpsertKeepsRows(rows: seq<ComponentState>, m: Marker)
    requires UniqueNames(rows)
    ensures UniqueNames(Upserted(rows, m))
    ensures forall c :: c in Upserted(rows, m) <==>
              (c in rows && c.name != m.name) || (exists d :: d in rows && d.name == m.name && c == Merge(d, m))
              || ((forall d :: d in rows ==> d.name != m.name) &&
                c == ComponentState(m.name, m.index, m.total, m.namespace, m.status))
  {
    if rows != [] {
      assert rows == [rows[0]] + rows[1..];
      forall d | d in rows[1..] ensures d.name != rows[0].name {}
      if rows[0].name != m.name {
        UpsertKeepsRows(rows[1..], m);
      }
      var out := Upserted(rows, m);
      forall i, j | 0 <= i < j < |out| ensures out[i].name != out[j].name {
        assert out[j] in out[1..];
        assert i > 0 ==> out[i] == out[1..][i - 1] && out[j] == out[1..][j - 1];
      }
    }
  }

  /**
   * The header's values are carried forward: whatever status markers follow it, a component's row has the
   * namespace and the place its header gave, and the latest status.
   */
  lemma {:induction false} HeaderIsCarried(rows: seq<ComponentState>, header: Marker, later: Marker)
    requires UniqueNames(rows) && header.index != 0 && header.total != 0 && header.namespace != ""
    requires later.name == header.name && later.index == 0 && later.total == 0 && later.namespace == ""
    ensures ComponentState(header.name, header.index, header.total, header.namespace, later.status)
            in Upserted(Upserted(rows, header), later)
  {
    UpsertKeepsRows(rows, header);
    var once := Upserted(rows, header);
    UpsertKeepsRows(once, later);
    var row := ComponentState(header.name, header.index, header.total, header.namespace, header.status);
    if d :| d in rows && d.name == header.name {
      assert Merge(d, header) == row;
    }
    assert row in once && Merge(row, later) in Upserted(once, later);
  }

  // ---- the reinstall refusal ----

  const REINSTALL_HAZARDS := {"kai-scheduler"}

  /** The recipe's own hazardous releases that were already there. */
  method AlreadyInstalled(own: Ownership, recipe: set<string>) returns (clash: seq<ReleaseRef>)
    ensures forall r :: r in clash <==> r in own.releases && r.name in recipe && r.name in REINSTALL_HAZARDS
  {
    clash := [];
    for i := 0 to |own.releases|
      invariant forall r :: r in clash <==> r in own.releases[..i] && r.name in recipe && r.name in REINSTALL_HAZARDS
    {
      if own.releases[i].name in recipe && own.releases[i].name in REINSTALL_HAZARDS {
        clash := clash + [own.releases[i]];
      }
      assert own.releases[..i + 1] == own.releases[..i] + [own.releases[i]];
    }
    assert own.releases[..|own.releases|] == own.releases;
  }
}
