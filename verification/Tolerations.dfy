/**
 * The tolerations the console derives from a cluster's own GPU nodes: enough for every real pool,
 * none for a simulated one, and printed in a form that reads back.
 */
module Tolerations {
  import opened Wrappers
  import opened Ordering

  datatype Taint = Taint(key: string, value: string, effect: string)
  datatype Operator = Exists | Equal
  datatype Toleration = Toleration(key: string, operator: Operator, value: string, effect: string)

  datatype Node = Node(taints: seq<Taint>, capacity: nat, allocatable: nat, instanceType: string, accelerator: string)

  const KWOK := "kwok.x-k8s.io/node"

  /** Taints of a moment rather than of a pool. */
  const TRANSIENT_TAINTS := {
    "node.kubernetes.io/not-ready", "node.kubernetes.io/unreachable", "node.kubernetes.io/unschedulable",
    "node.kubernetes.io/memory-pressure", "node.kubernetes.io/disk-pressure", "node.kubernetes.io/network-unavailable",
    "node.kubernetes.io/pid-pressure", "node.kubernetes.io/out-of-service",
    "ToBeDeletedByClusterAutoscaler", "DeletionCandidateOfClusterAutoscaler" }

  predicate Transient(t: Taint) { t.key in TRANSIENT_TAINTS }

  // ---- matching ----

  /** The scheduler's rule: an empty key or effect matches any. */
  predicate Tolerates(tol: Toleration, t: Taint) {
    && (tol.effect == "" || tol.effect == t.effect)
    && (tol.key == "" || tol.key == t.key)
    && (tol.operator == Exists || tol.value == t.value)
  }

  predicate Tolerated(t: Taint, tols: seq<Toleration>) {
    exists i :: 0 <= i < |tols| && Tolerates(tols[i], t)
  }

  const BUILT_IN := Toleration("nvidia.com/gpu", Exists, "", "")

  /** The set the agent Job really carries. */
  function AgentTolerations(extra: seq<Toleration>): seq<Toleration> { [BUILT_IN] + extra }

  /** The narrowest toleration of one taint. */
  function TolerationFor(t: Taint): Toleration { Toleration(t.key, Equal, t.value, t.effect) }

  predicate Untolerated(n: Node, tols: seq<Toleration>, t: Taint) {
    t in n.taints && !Transient(t) && !Tolerated(t, tols)
  }

  method UntoleratedTaints(n: Node, tols: seq<Toleration>) returns (out: seq<Taint>)
    ensures forall t :: t in out <==> Untolerated(n, tols, t)
  {
    hide Transient;
    out := [];
    for i := 0 to |n.taints|
      invariant forall t :: t in out <==> t in n.taints[..i] && !Transient(t) && !Tolerated(t, tols)
    {
      assert n.taints[..i + 1] == n.taints[..i] + [n.taints[i]];
      if !Transient(n.taints[i]) && !Tolerated(n.taints[i], tols) {
        out := out + [n.taints[i]];
      }
    }
    assert n.taints[..|n.taints|] == n.taints;
  }

  /** With nothing added, the agent goes where the GPU taint is, whatever its value and effect, and past no other. */
  lemma BuiltInExactly(t: Taint)
    ensures Tolerated(t, AgentTolerations([])) <==> t.key == "nvidia.com/gpu"
  {
    assert AgentTolerations([])[0] == BUILT_IN;
  }

  /** What is derived for a taint tolerates that taint and no other. */
  lemma DerivedIsNarrowest(t: Taint, other: Taint)
    requires t.key != "" && t.effect != ""
    ensures Tolerates(TolerationFor(t), other) <==> other == t
  {
  }

  /** A toleration read without a value or without an effect matches any; the rest must agree. */
  lemma ReadTolerates(key: string, operator: Operator, value: string, effect: string, t: Taint)
    requires key != ""
    ensures Tolerates(Toleration(key, operator, value, effect), t) <==>
              t.key == key && (operator.Exists? || t.value == value) && (effect == "" || t.effect == effect)
  {
  }

  /** What the control plane puts on a node for the moment never keeps anything off for good. */
  lemma MomentaryNeverBlocks(n: Node, tols: seq<Toleration>)
    requires forall t :: t in n.taints ==> t.key in {
      "node.kubernetes.io/not-ready", "node.kubernetes.io/unreachable", "node.kubernetes.io/unschedulable",
      "node.kubernetes.io/memory-pressure", "node.kubernetes.io/disk-pressure",
      "node.kubernetes.io/network-unavailable", "node.kubernetes.io/pid-pressure", "node.kubernetes.io/out-of-service",
      "ToBeDeletedByClusterAutoscaler", "DeletionCandidateOfClusterAutoscaler" }
    ensures !Blocked(n, tols) && !Simulated(n) && AcceptsAnything(n)
  {
  }

  // ---- nodes ----

  function GpuCapacity(n: Node): nat { if n.allocatable > 0 then n.allocatable else n.capacity }

  predicate Simulated(n: Node) { exists t :: t in n.taints && !Transient(t) && t.key == KWOK }

  predicate RealGpuNode(n: Node) { GpuCapacity(n) > 0 && !Simulated(n) }

  /** A real GPU node something still keeps the agent off. */
  predicate Blocked(n: Node, tols: seq<Toleration>) {
    RealGpuNode(n) && exists t :: t in n.taints && Untolerated(n, tols, t)
  }

  // ---- text ----

  function FormatTaint(t: Taint): string {
    t.key + (if t.value != "" then "=" + t.value else "") + (if t.effect != "" then ":" + t.effect else "")
  }

  predicate IsSpace(c: char) { c == ' ' || c == '\t' || c == '\n' || c == '\r' }

  /** Label syntax allows none of the characters the list is punctuated with. */
  predicate Plain(s: string) {
    forall i :: 0 <= i < |s| ==> s[i] != ',' && s[i] != ':' && s[i] != '=' && !IsSpace(s[i])
  }

  predicate ValidTaint(t: Taint) { t.key != "" && Plain(t.key) && Plain(t.value) && Plain(t.effect) }

  /** Up to the first c, after it, and whether there is one. */
  function Cut(s: string, c: char): (string, string, bool) {
    if s == "" then ("", "", false)
    else if s[0] == c then ("", s[1..], true)
    else var rest := Cut(s[1..], c); ([s[0]] + rest.0, rest.1, rest.2)
  }

  lemma {:induction false} CutShortens(s: string, c: char)
    ensures Cut(s, c).2 ==> |Cut(s, c).1| < |s|
  {
    if s != "" && s[0] != c { CutShortens(s[1..], c); }
  }

  function Split(s: string, c: char): seq<string>
    decreases |s|
  {
    CutShortens(s, c);
    var cut := Cut(s, c);
    if cut.2 then [cut.0] + Split(cut.1, c) else [cut.0]
  }

  function Join(parts: seq<string>): string {
    if parts == [] then "" else if |parts| == 1 then parts[0] else parts[0] + "," + Join(parts[1..])
  }

  function TrimLeft(s: string): string { if s != "" && IsSpace(s[0]) then TrimLeft(s[1..]) else s }

  function TrimRight(s: string): string { if s != "" && IsSpace(s[|s| - 1]) then TrimRight(s[..|s| - 1]) else s }

  function TrimSpace(s: string): string { TrimRight(TrimLeft(s)) }

  /** One entry of the list; an entry without a key is skipped. */
  function ParseSpec(entry: string): Option<Toleration> {
    var spec := TrimSpace(entry);
    var byEffect := Cut(spec, ':');
    var byValue := Cut(byEffect.0, '=');
    var key := TrimSpace(byValue.0);
    if spec == "" || key == "" then None
    else
      var valued := byValue.2 && TrimSpace(byValue.1) != "";
      Some(Toleration(key, if valued then Equal else Exists, if valued then TrimSpace(byValue.1) else "",
                      if byEffect.2 then TrimSpace(byEffect.1) else ""))
  }

  function Specs(entry: string): seq<Toleration> {
    match ParseSpec(entry) case Some(tol) => [tol] case None => []
  }

  function ParseAll(entries: seq<string>): seq<Toleration> {
    if entries == [] then [] else Specs(entries[0]) + ParseAll(entries[1..])
  }

  function ParseTolerations(s: string): seq<Toleration> { if s == "" then [] else ParseAll(Split(s, ',')) }

  lemma {:induction false} ParseAllAppend(entries: seq<string>, entry: string)
    ensures ParseAll(entries + [entry]) == ParseAll(entries) + Specs(entry)
  {
    hide Specs;
    if entries == [] {
      assert [] + [entry] == [entry];
      assert ParseAll([entry]) == Specs(entry) + ParseAll([]);
    } else {
      assert (entries + [entry])[1..] == entries[1..] + [entry];
      ParseAllAppend(entries[1..], entry);
      assert ParseAll(entries) == Specs(entries[0]) + ParseAll(entries[1..]);
    }
  }

  method ReadTolerations(s: string) returns (out: seq<Toleration>)
    ensures out == ParseTolerations(s)
  {
    if s == "" { return []; }
    out := [];
    var entries := Split(s, ',');
    for i := 0 to |entries|
      invariant out == ParseAll(entries[..i])
    {
      assert entries[..i + 1] == entries[..i] + [entries[i]];
      ParseAllAppend(entries[..i], entries[i]);
      var spec := TrimSpace(entries[i]);
      if spec != "" {
        var byEffect := Cut(spec, ':');
        var byValue := Cut(byEffect.0, '=');
        var key := TrimSpace(byValue.0);
        if key != "" {
          var tol := Toleration(key, Exists, "", "");
          if byValue.2 && TrimSpace(byValue.1) != "" {
            tol := tol.(operator := Equal, value := TrimSpace(byValue.1));
          }
          if byEffect.2 && TrimSpace(byEffect.1) != "" {
            tol := tol.(effect := TrimSpace(byEffect.1));
          }
          out := out + [tol];
        }
      }
    }
    assert entries[..|entries|] == entries;
  }

  /** Space around an entry is nothing to it. */
  lemma PaddingIsIgnored(before: string, entry: string, after: string)
    requires forall i :: 0 <= i < |before| ==> before[i] in {' ', '\t', '\n', '\r'}
    requires forall i :: 0 <= i < |after| ==> after[i] in {' ', '\t', '\n', '\r'}
    ensures ParseSpec(before + entry + after) == ParseSpec(entry)
  {
    hide ParseSpec;
    TrimsLeft(before, entry + after);
    assert before + (entry + after) == before + entry + after;
    TrimsRight(entry, after);
    SpecOfTrimmed(before + entry + after, entry);
  }

  lemma SpecOfTrimmed(a: string, b: string)
    requires TrimSpace(a) == TrimSpace(b)
    ensures ParseSpec(a) == ParseSpec(b)
  {
  }

  lemma {:induction false} TrimsLeft(pad: string, s: string)
    requires forall i :: 0 <= i < |pad| ==> pad[i] in {' ', '\t', '\n', '\r'}
    ensures TrimLeft(pad + s) == TrimLeft(s)
  {
    if pad == "" {
      assert pad + s == s;
    } else {
      assert (pad + s)[1..] == pad[1..] + s;
      TrimsLeft(pad[1..], s);
    }
  }

  /** Space behind goes, whatever is left in front of it. */
  lemma {:induction false} TrimsRight(s: string, pad: string)
    requires forall i :: 0 <= i < |pad| ==> pad[i] in {' ', '\t', '\n', '\r'}
    ensures TrimSpace(s + pad) == TrimSpace(s)
  {
    if s == "" {
      assert s + pad == pad;
      TrimsLeft(pad, "");
      assert pad + "" == pad;
    } else if IsSpace(s[0]) {
      assert (s + pad)[1..] == s[1..] + pad;
      TrimsRight(s[1..], pad);
    } else {
      TrimsEnd(s, pad);
    }
  }

  lemma {:induction false} TrimsEnd(s: string, pad: string)
    requires forall i :: 0 <= i < |pad| ==> pad[i] in {' ', '\t', '\n', '\r'}
    ensures TrimRight(s + pad) == TrimRight(s)
  {
    if pad == "" {
      assert s + pad == s;
    } else {
      var n := |pad| - 1;
      assert (s + pad)[..|s + pad| - 1] == s + pad[..n];
      TrimsEnd(s, pad[..n]);
    }
  }

  // ---- what is printed reads back ----

  lemma {:induction false} CutAt(a: string, b: string, c: char)
    requires c !in a
    ensures Cut(a + [c] + b, c) == (a, b, true)
  {
    if a != "" {
      assert (a + [c] + b)[1..] == a[1..] + [c] + b;
      assert a == [a[0]] + a[1..];
      CutAt(a[1..], b, c);
    } else {
      assert (a + [c] + b)[1..] == b;
    }
  }

  lemma {:induction false} CutNone(s: string, c: char)
    requires c !in s
    ensures Cut(s, c) == (s, "", false)
  {
    if s != "" {
      assert s == [s[0]] + s[1..];
      CutNone(s[1..], c);
    }
  }

  predicate NoSpace(s: string) { forall i :: 0 <= i < |s| ==> !IsSpace(s[i]) }

  lemma TrimNothing(s: string)
    requires NoSpace(s)
    ensures TrimSpace(s) == s
  {
  }

  /** What a printed taint reads back as: its own toleration, or without a value one that matches any. */
  function ReadBack(t: Taint): Toleration {
    if t.value != "" then TolerationFor(t) else Toleration(t.key, Exists, "", t.effect)
  }

  lemma SpecReadsBack(t: Taint)
    requires ValidTaint(t)
    ensures ParseSpec(FormatTaint(t)) == Some(ReadBack(t))
  {
    var keyValue := t.key + (if t.value != "" then "=" + t.value else "");
    var spec := FormatTaint(t);
    assert spec == keyValue + (if t.effect != "" then ":" + t.effect else "");
    TrimNothing(spec);
    if t.effect != "" {
      assert spec == keyValue + [':'] + t.effect;
      CutAt(keyValue, t.effect, ':');
    } else {
      assert spec == keyValue;
      CutNone(keyValue, ':');
    }
    if t.value != "" {
      assert keyValue == t.key + ['='] + t.value;
      CutAt(t.key, t.value, '=');
    } else {
      assert keyValue == t.key;
      CutNone(t.key, '=');
    }
    TrimNothing(t.key);
    TrimNothing(t.value);
    TrimNothing(t.effect);
  }

  lemma {:induction false} SplitJoins(parts: seq<string>)
    requires parts != [] && forall i :: 0 <= i < |parts| ==> ',' !in parts[i]
    ensures Split(Join(parts), ',') == parts
  {
    if |parts| == 1 {
      CutNone(parts[0], ',');
    } else {
      assert parts == [parts[0]] + parts[1..];
      assert Join(parts) == parts[0] + [','] + Join(parts[1..]);
      CutAt(parts[0], Join(parts[1..]), ',');
      SplitJoins(parts[1..]);
    }
  }

  /** What an entry reads as: without a value it matches any, without a key it is nothing. */
  lemma EntriesRead(key: string, value: string, effect: string)
    requires key != "" && value != "" && effect != "" && Plain(key) && Plain(value) && Plain(effect)
    ensures ParseSpec(key + "=" + value + ":" + effect) == Some(Toleration(key, Equal, value, effect))
    ensures ParseSpec(key + ":" + effect) == Some(Toleration(key, Exists, "", effect))
    ensures ParseSpec(key + "=" + ":" + effect) == ParseSpec(key + ":" + effect)
    ensures ParseSpec(key + "=") == ParseSpec(key) == Some(Toleration(key, Exists, "", ""))
    ensures ParseSpec("=" + value) == ParseSpec(":" + effect) == ParseSpec("") == None
  {
    SpecReadsBack(Taint(key, value, effect));
    SpecReadsBack(Taint(key, "", effect));
    SpecReadsBack(Taint(key, "", ""));
    assert key + "=" + value + ":" + effect == key + ("=" + value) + (":" + effect);
    assert key + ":" + effect == key + "" + (":" + effect);
    assert key == key + "" + "";
    EmptyValueReads(key, effect);
    KeylessReads(value, effect);
  }

  lemma EmptyValueReads(key: string, effect: string)
    requires key != "" && effect != "" && Plain(key) && Plain(effect)
    ensures ParseSpec(key + "=" + ":" + effect) == Some(Toleration(key, Exists, "", effect))
    ensures ParseSpec(key + "=") == Some(Toleration(key, Exists, "", ""))
  {
    var spec := key + "=" + ":" + effect;
    TrimNothing(spec);
    TrimNothing(key + "=");
    assert spec == (key + "=") + [':'] + effect;
    CutAt(key + "=", effect, ':');
    assert key + "=" == key + ['='] + "";
    CutAt(key, "", '=');
    CutNone(key + "=", ':');
    TrimNothing(key);
    TrimNothing(effect);
  }

  lemma KeylessReads(value: string, effect: string)
    requires value != "" && effect != "" && Plain(value) && Plain(effect)
    ensures ParseSpec("=" + value) == ParseSpec(":" + effect) == ParseSpec("") == None
  {
    TrimNothing("=" + value);
    TrimNothing(":" + effect);
    assert "=" + value == "" + ['='] + value && ":" + effect == "" + [':'] + effect;
    CutNone("=" + value, ':');
    CutAt("", value, '=');
    CutAt("", effect, ':');
  }

  function Formats(ts: seq<Taint>): seq<string> { seq(|ts|, i requires 0 <= i < |ts| => FormatTaint(ts[i])) }

  lemma {:induction false} ParseAllReadsBack(ts: seq<Taint>)
    requires forall i :: 0 <= i < |ts| ==> ValidTaint(ts[i])
    ensures ParseAll(Formats(ts)) == seq(|ts|, i requires 0 <= i < |ts| => ReadBack(ts[i]))
  {
    hide ParseSpec, FormatTaint, ReadBack;
    if ts != [] {
      SpecReadsBack(ts[0]);
      ParseAllReadsBack(ts[1..]);
      assert Formats(ts)[1..] == Formats(ts[1..]);
    }
  }

  /** The printed list, pasted back, tolerates every taint it was printed for, exactly where it has a value. */
  lemma PrintedListReadsBack(ts: seq<Taint>)
    requires ts != [] && forall i :: 0 <= i < |ts| ==> ValidTaint(ts[i])
    ensures var out := ParseTolerations(Join(Formats(ts)));
            && |out| == |ts|
            && forall i :: 0 <= i < |ts| ==>
                 Tolerates(out[i], ts[i]) && (ts[i].value != "" ==> out[i] == TolerationFor(ts[i]))
  {
    forall i | 0 <= i < |ts| ensures ',' !in Formats(ts)[i] && Formats(ts)[i] != "" {}
    assert Join(Formats(ts)) != "" by { assert Formats(ts)[0] != ""; }
    SplitJoins(Formats(ts));
    ParseAllReadsBack(ts);
  }

  // ---- derivation ----

  /** Two valid taints print alike only if they are alike. */
  lemma FormatTells(a: Taint, b: Taint)
    requires ValidTaint(a) && ValidTaint(b) && FormatTaint(a) == FormatTaint(b)
    ensures a == b
  {
    FormatSplits(a);
    FormatSplits(b);
  }

  lemma FormatSplits(t: Taint)
    requires ValidTaint(t)
    ensures var byEffect := Cut(FormatTaint(t), ':');
            && byEffect.1 == t.effect
            && Cut(byEffect.0, '=').0 == t.key && Cut(byEffect.0, '=').1 == t.value
  {
    var keyValue := t.key + (if t.value != "" then "=" + t.value else "");
    if t.effect != "" {
      assert FormatTaint(t) == keyValue + [':'] + t.effect;
      CutAt(keyValue, t.effect, ':');
    } else {
      assert FormatTaint(t) == keyValue;
      CutNone(keyValue, ':');
    }
    if t.value != "" {
      assert keyValue == t.key + ['='] + t.value;
      CutAt(t.key, t.value, '=');
    } else {
      assert keyValue == t.key;
      CutNone(t.key, '=');
    }
  }

  /** t keeps the agent off a real GPU node of nodes. */
  predicate InTheWay(nodes: seq<Node>, tols: seq<Toleration>, t: Taint) {
    exists n :: n in nodes && RealGpuNode(n) && Untolerated(n, tols, t)
  }

  predicate Listed(out: seq<Taint>, text: string) { exists i :: 0 <= i < |out| && FormatTaint(out[i]) == text }

  /** out names, once each by their text, the taints in the agent's way. */
  ghost predicate DerivedFrom(nodes: seq<Node>, tols: seq<Toleration>, out: seq<Taint>) {
    && (forall t :: t in out ==> InTheWay(nodes, tols, t))
    && (forall t :: InTheWay(nodes, tols, t) ==> Listed(out, FormatTaint(t)))
    && (forall i, j :: 0 <= i < j < |out| ==> FormatTaint(out[i]) != FormatTaint(out[j]))
  }

  method IsSimulated(n: Node) returns (simulated: bool)
    ensures simulated <==> Simulated(n)
  {
    hide Transient;
    for i := 0 to |n.taints|
      invariant forall j :: 0 <= j < i ==> Transient(n.taints[j]) || n.taints[j].key != KWOK
    {
      if !Transient(n.taints[i]) && n.taints[i].key == KWOK { return true; }
    }
    return false;
  }

  /** The taints of one more node join those found so far, unless their text is already there. */
  method AddNew(out: seq<Taint>, more: seq<Taint>) returns (all: seq<Taint>)
    requires forall i, j :: 0 <= i < j < |out| ==> FormatTaint(out[i]) != FormatTaint(out[j])
    ensures forall t :: t in all ==> t in out || t in more
    ensures forall text :: Listed(all, text) <==> Listed(out, text) || Listed(more, text)
    ensures forall i, j :: 0 <= i < j < |all| ==> FormatTaint(all[i]) != FormatTaint(all[j])
  {
    hide FormatTaint;
    all := out;
    for k := 0 to |more|
      invariant forall t :: t in all ==> t in out || t in more
      invariant forall text :: Listed(all, text) <==> Listed(out, text) || Listed(more[..k], text)
      invariant forall i, j :: 0 <= i < j < |all| ==> FormatTaint(all[i]) != FormatTaint(all[j])
    {
      var t := more[k];
      var seen := false;
      for i := 0 to |all|
        invariant seen <==> exists j :: 0 <= j < i && FormatTaint(all[j]) == FormatTaint(t)
      {
        if FormatTaint(all[i]) == FormatTaint(t) { seen := true; }
      }
      assert more[..k + 1] == more[..k] + [t];
      ListedAppend(more[..k], t);
      if !seen {
        ListedAppend(all, t);
        all := all + [t];
      } else {
        assert Listed(all, FormatTaint(t));
      }
    }
    assert more[..|more|] == more;
  }

  lemma ListedAppend(ts: seq<Taint>, t: Taint)
    ensures forall text :: Listed(ts + [t], text) <==> Listed(ts, text) || text == FormatTaint(t)
  {
    hide FormatTaint;
    var all := ts + [t];
    assert FormatTaint(all[|ts|]) == FormatTaint(t);
    forall text | Listed(ts, text) ensures Listed(all, text) {
      var i :| 0 <= i < |ts| && FormatTaint(ts[i]) == text;
      assert FormatTaint(all[i]) == text;
    }
  }

  lemma ListedIfIn(ts: seq<Taint>, t: Taint)
    requires t in ts
    ensures Listed(ts, FormatTaint(t))
  {
    hide FormatTaint;
    var i :| 0 <= i < |ts| && ts[i] == t;
  }

  method UntoleratedGpuPoolTaints(nodes: seq<Node>, tols: seq<Toleration>) returns (out: seq<Taint>)
    ensures DerivedFrom(nodes, tols, out)
  {
    hide FormatTaint, Transient, Untolerated, Simulated, InTheWay, Listed;
    out := [];
    NothingInTheWay(tols);
    for k := 0 to |nodes|
      invariant DerivedFrom(nodes[..k], tols, out)
    {
      assert nodes[..k + 1] == nodes[..k] + [nodes[k]];
      WayAppend(nodes[..k], nodes[k], tols);
      var simulated := IsSimulated(nodes[k]);
      if GpuCapacity(nodes[k]) > 0 && !simulated {
        var found := UntoleratedTaints(nodes[k], tols);
        forall t | t in found ensures Listed(found, FormatTaint(t)) { ListedIfIn(found, t); }
        out := AddNew(out, found);
      }
    }
    assert nodes[..|nodes|] == nodes;
  }

  lemma NothingInTheWay(tols: seq<Toleration>)
    ensures forall t :: !InTheWay([], tols, t)
  {
  }

  lemma WayAppend(nodes: seq<Node>, n: Node, tols: seq<Toleration>)
    ensures forall t :: InTheWay(nodes + [n], tols, t) <==>
            InTheWay(nodes, tols, t) || (RealGpuNode(n) && Untolerated(n, tols, t))
  {
    hide RealGpuNode, Untolerated;
    var all := nodes + [n];
    assert n in all && forall m :: m in nodes ==> m in all;
    forall t | InTheWay(nodes, tols, t) ensures InTheWay(all, tols, t) {
      var m :| m in nodes && RealGpuNode(m) && Untolerated(m, tols, t);
      assert m in all;
    }
  }

  function TolerationsFor(ts: seq<Taint>): seq<Toleration> {
    seq(|ts|, i requires 0 <= i < |ts| => TolerationFor(ts[i]))
  }

  /** With what was derived added, no real GPU node of a validly tainted cluster is left blocked. */
  lemma NoPoolLeftBlocked(nodes: seq<Node>, extra: seq<Toleration>, out: seq<Taint>, n: Node)
    requires DerivedFrom(nodes, AgentTolerations(extra), out) && n in nodes
    requires forall m, t :: m in nodes && t in m.taints ==> ValidTaint(t)
    ensures !Blocked(n, AgentTolerations(extra + TolerationsFor(out)))
  {
    hide Transient, Simulated, FormatTaint, ValidTaint;
    var tols, after := AgentTolerations(extra), AgentTolerations(extra + TolerationsFor(out));
    forall t | RealGpuNode(n) && t in n.taints && !Transient(t) ensures Tolerated(t, after) {
      if Untolerated(n, tols, t) {
        assert InTheWay(nodes, tols, t);
        var i :| 0 <= i < |out| && FormatTaint(out[i]) == FormatTaint(t);
        assert out[i] in out && InTheWay(nodes, tols, out[i]);
        var m :| m in nodes && RealGpuNode(m) && Untolerated(m, tols, out[i]);
        FormatTells(out[i], t);
        DerivedTolerates(extra, out, i);
      } else {
        MoreTolerates(extra, out, t);
      }
    }
  }

  lemma DerivedTolerates(extra: seq<Toleration>, out: seq<Taint>, i: int)
    requires 0 <= i < |out|
    ensures Tolerated(out[i], AgentTolerations(extra + TolerationsFor(out)))
  {
    assert AgentTolerations(extra + TolerationsFor(out))[1 + |extra| + i] == TolerationFor(out[i]);
  }

  lemma MoreTolerates(extra: seq<Toleration>, out: seq<Taint>, t: Taint)
    requires Tolerated(t, AgentTolerations(extra))
    ensures Tolerated(t, AgentTolerations(extra + TolerationsFor(out)))
  {
    var tols := AgentTolerations(extra);
    var i :| 0 <= i < |tols| && Tolerates(tols[i], t);
    assert AgentTolerations(extra + TolerationsFor(out))[i] == tols[i];
  }

  lemma RealHasNoKwok(n: Node, t: Taint)
    requires RealGpuNode(n) && t in n.taints && !Transient(t)
    ensures t.key != KWOK
  {
  }

  lemma KeysMatch(t: Taint, other: Taint)
    requires ValidTaint(t) && Tolerates(TolerationFor(t), other)
    ensures t.key == other.key
  {
  }

  /** None of what was derived tolerates the taint that marks a simulated node, whatever its value and effect. */
  lemma NoneToleratesKwok(nodes: seq<Node>, tols: seq<Toleration>, out: seq<Taint>, i: int, kwok: Taint)
    requires DerivedFrom(nodes, tols, out) && 0 <= i < |out| && kwok.key == "kwok.x-k8s.io/node"
    requires forall m, t :: m in nodes && t in m.taints ==> ValidTaint(t)
    ensures !Tolerates(TolerationFor(out[i]), kwok)
  {
    hide Transient, FormatTaint, Simulated, ValidTaint;
    var t := out[i];
    assert InTheWay(nodes, tols, t);
    var n :| n in nodes && RealGpuNode(n) && Untolerated(n, tols, t);
    assert ValidTaint(t);
    RealHasNoKwok(n, t);
    if Tolerates(TolerationFor(t), kwok) { KeysMatch(t, kwok); }
  }

  // ---- the composition the screen shows ----

  datatype Composition = Composition(total: nat, gpuNodes: nat, untainted: nat, totalGpus: nat, usableGpus: nat,
    remedy: seq<Taint>)

  function Count(nodes: seq<Node>, p: Node -> bool): nat {
    if nodes == [] then 0 else Count(nodes[..|nodes| - 1], p) + (if p(nodes[|nodes| - 1]) then 1 else 0)
  }

  function Sum(nodes: seq<Node>, f: Node -> nat): nat {
    if nodes == [] then 0 else Sum(nodes[..|nodes| - 1], f) + f(nodes[|nodes| - 1])
  }

  predicate HasGpus(n: Node) { GpuCapacity(n) > 0 }

  /** What a node adds to the totals: nothing unless it has GPUs to speak of. */
  function GpusOf(n: Node): nat { if HasGpus(n) then n.capacity else 0 }

  function UsableOf(n: Node): nat { if HasGpus(n) then n.allocatable else 0 }

  predicate AcceptsAnything(n: Node) { forall t :: t in n.taints ==> Transient(t) }

  /** A node counts as having GPUs by what it can hand out, or by what it has while that is not known yet. */
  lemma GpusEitherWay(n: Node)
    ensures HasGpus(n) <==> n.capacity > 0 || n.allocatable > 0
    ensures n.allocatable > 0 ==> GpuCapacity(n) == n.allocatable
    ensures GpusOf(n) == n.capacity && UsableOf(n) == n.allocatable
  {
  }

  /** One pass over the nodes; the remedy is empty exactly when no node is blocked. */
  method Compose(nodes: seq<Node>, tols: seq<Toleration>) returns (comp: Composition)
    ensures comp.total == |nodes| && comp.gpuNodes == Count(nodes, HasGpus) &&
            comp.untainted == Count(nodes, AcceptsAnything)
    ensures comp.totalGpus == Sum(nodes, GpusOf) && comp.usableGpus == Sum(nodes, UsableOf)
    ensures DerivedFrom(nodes, tols, comp.remedy)
    ensures comp.remedy == [] <==> forall n :: n in nodes ==> !Blocked(n, tols)
  {
    hide FormatTaint, Transient, Simulated;
    var remedy := UntoleratedGpuPoolTaints(nodes, tols);
    var gpuNodes: nat, untainted: nat, totalGpus: nat, usableGpus: nat := 0, 0, 0, 0;
    for k := 0 to |nodes|
      invariant gpuNodes == Count(nodes[..k], HasGpus) && untainted == Count(nodes[..k], AcceptsAnything)
      invariant totalGpus == Sum(nodes[..k], GpusOf) && usableGpus == Sum(nodes[..k], UsableOf)
    {
      assert nodes[..k + 1][..k] == nodes[..k];
      var bare := UntoleratedTaints(nodes[k], []);
      assert bare == [] <==> AcceptsAnything(nodes[k]) by {
        if bare != [] { assert bare[0] in bare; }
        forall t | t in nodes[k].taints && !Transient(t) ensures t in bare { assert !Tolerated(t, []); }
      }
      if |bare| == 0 { untainted := untainted + 1; }
      if GpuCapacity(nodes[k]) > 0 {
        gpuNodes := gpuNodes + 1;
        totalGpus := totalGpus + nodes[k].capacity;
        usableGpus := usableGpus + nodes[k].allocatable;
      }
    }
    assert nodes[..|nodes|] == nodes;
    comp := Composition(|nodes|, gpuNodes, untainted, totalGpus, usableGpus, remedy);
    RemedyMeansBlocked(nodes, tols, remedy);
  }

  lemma RemedyMeansBlocked(nodes: seq<Node>, tols: seq<Toleration>, out: seq<Taint>)
    requires DerivedFrom(nodes, tols, out)
    ensures out == [] <==> forall n :: n in nodes ==> !Blocked(n, tols)
  {
    hide FormatTaint, Transient, Simulated;
    if out != [] {
      assert InTheWay(nodes, tols, out[0]);
      var n :| n in nodes && RealGpuNode(n) && Untolerated(n, tols, out[0]);
      assert Blocked(n, tols);
    }
    forall n | n in nodes && Blocked(n, tols) ensures out != [] {
      var t :| t in n.taints && Untolerated(n, tols, t);
      assert InTheWay(nodes, tols, t);
      assert Listed(out, FormatTaint(t));
    }
  }

  // ---- node groups ----

  const MAX_NODE_GROUPS := 8

  /** Nodes of one shape; the key leaves the GPU count out, so blocked is the first node's verdict. */
  datatype Group = Group(instanceType: string, accelerator: string, taints: seq<string>, blocked: bool, count: nat)

  datatype GroupKey = GroupKey(instanceType: string, accelerator: string, taints: seq<string>)

  function ShownTaints(taints: seq<Taint>): seq<string> {
    if taints == [] then []
    else ShownTaints(taints[..|taints| - 1])
         + (if Transient(taints[|taints| - 1]) then [] else [FormatTaint(taints[|taints| - 1])])
  }

  function KeyOfNode(n: Node): GroupKey { GroupKey(n.instanceType, n.accelerator, ShownTaints(n.taints)) }

  function KeyOfGroup(g: Group): GroupKey { GroupKey(g.instanceType, g.accelerator, g.taints) }

  /** The texts of the lasting taints. */
  lemma {:induction false} ShownAreLasting(taints: seq<Taint>, text: string)
    ensures text in ShownTaints(taints) <==> exists t :: t in taints && !Transient(t) && FormatTaint(t) == text
  {
    hide FormatTaint, Transient;
    if taints != [] {
      var n := |taints| - 1;
      ShownAreLasting(taints[..n], text);
      assert taints == taints[..n] + [taints[n]];
    }
  }

  /** Nodes of one instance type and accelerator with the same lasting taints share a group, and only they. */
  lemma SameShape(a: Node, b: Node)
    ensures KeyOfNode(a) == KeyOfNode(b) <==>
              a.instanceType == b.instanceType && a.accelerator == b.accelerator &&
              ShownTaints(a.taints) == ShownTaints(b.taints)
  {
  }

  /** How many of the nodes have this shape. */
  function CountOf(nodes: seq<Node>, key: GroupKey): nat {
    if nodes == [] then 0
    else CountOf(nodes[..|nodes| - 1], key) + (if KeyOfNode(nodes[|nodes| - 1]) == key then 1 else 0)
  }

  /** Node j is the first of its shape. */
  predicate FirstOfShape(nodes: seq<Node>, j: int) {
    0 <= j < |nodes| && forall i :: 0 <= i < j ==> KeyOfNode(nodes[i]) != KeyOfNode(nodes[j])
  }

  /** g stands for every node of its shape, with the verdict of the first of them. */
  ghost predicate StandsFor(nodes: seq<Node>, blocked: seq<bool>, g: Group) {
    && g.count == CountOf(nodes, KeyOfGroup(g))
    && exists j ::
        FirstOfShape(nodes, j) && j < |blocked| && KeyOfNode(nodes[j]) == KeyOfGroup(g) && g.blocked == blocked[j]
  }

  lemma {:induction false} NoneYet(nodes: seq<Node>, key: GroupKey)
    requires forall j :: 0 <= j < |nodes| ==> KeyOfNode(nodes[j]) != key
    ensures CountOf(nodes, key) == 0
  {
    if nodes != [] { NoneYet(nodes[..|nodes| - 1], key); }
  }

  /** One more node: its own group counts it, the others stand as they did. */
  lemma StandsForMore(nodes: seq<Node>, blocked: seq<bool>, n: Node, g: Group)
    requires StandsFor(nodes, blocked, g)
    ensures StandsFor(nodes + [n], blocked, if KeyOfNode(n) == KeyOfGroup(g) then g.(count := g.count + 1) else g)
  {
    hide KeyOfNode;
    var all := nodes + [n];
    var j :| FirstOfShape(nodes, j) && j < |blocked| && KeyOfNode(nodes[j]) == KeyOfGroup(g) && g.blocked == blocked[j];
    assert all[..|nodes|] == nodes;
    assert FirstOfShape(all, j) by { forall i | 0 <= i <= j ensures all[i] == nodes[i] {} }
  }

  lemma StandsForFirst(nodes: seq<Node>, blocked: seq<bool>, n: Node)
    requires |nodes| < |blocked| && forall j :: 0 <= j < |nodes| ==> KeyOfNode(nodes[j]) != KeyOfNode(n)
    ensures var key := KeyOfNode(n);
            StandsFor(nodes + [n], blocked, Group(key.instanceType, key.accelerator, key.taints, blocked[|nodes|], 1))
  {
    hide KeyOfNode;
    var all := nodes + [n];
    NoneYet(nodes, KeyOfNode(n));
    assert all[..|nodes|] == nodes;
    assert FirstOfShape(all, |nodes|);
  }

  /** Where each shape's group is. */
  ghost predicate Indexed(groups: seq<Group>, index: map<GroupKey, nat>) {
    && (forall key :: key in index ==> index[key] < |groups| && KeyOfGroup(groups[index[key]]) == key)
    && (forall i :: 0 <= i < |groups| ==> KeyOfGroup(groups[i]) in index && index[KeyOfGroup(groups[i])] == i)
  }

  /** One group per shape that occurs; each counts exactly its nodes and has the first one's verdict. */
  method FoldGroups(nodes: seq<Node>, blocked: seq<bool>) returns (groups: seq<Group>)
    requires |blocked| == |nodes|
    ensures forall i, j :: 0 <= i < j < |groups| ==> KeyOfGroup(groups[i]) != KeyOfGroup(groups[j])
    ensures forall i :: 0 <= i < |groups| ==> StandsFor(nodes, blocked, groups[i])
    ensures forall n :: n in nodes ==> exists i :: 0 <= i < |groups| && KeyOfGroup(groups[i]) == KeyOfNode(n)
  {
    hide KeyOfNode, StandsFor;
    groups := [];
    var index: map<GroupKey, nat> := map[];
    for k := 0 to |nodes|
      invariant Indexed(groups, index)
      invariant forall i :: 0 <= i < |groups| ==> StandsFor(nodes[..k], blocked, groups[i])
      invariant forall j :: 0 <= j < k ==> KeyOfNode(nodes[j]) in index
    {
      var key := KeyOfNode(nodes[k]);
      assert nodes[..k + 1] == nodes[..k] + [nodes[k]];
      forall i | 0 <= i < |groups| { StandsForMore(nodes[..k], blocked, nodes[k], groups[i]); }
      if key in index {
        var at := index[key];
        groups := groups[at := groups[at].(count := groups[at].count + 1)];
      } else {
        StandsForFirst(nodes[..k], blocked, nodes[k]);
        index := index[key := |groups|];
        groups := groups + [Group(key.instanceType, key.accelerator, key.taints, blocked[k], 1)];
      }
    }
    assert nodes[..|nodes|] == nodes;
  }

  /** Blocked first, then by size. */
  function ShownBefore(a: Group, b: Group): bool {
    if a.blocked != b.blocked then a.blocked else a.count > b.count
  }

  /** What the screen shows, and how many groups it leaves out. */
  function Shown(groups: seq<Group>): (seq<Group>, nat) {
    var sorted := Sort(ShownBefore, groups);
    if |sorted| > MAX_NODE_GROUPS then (sorted[..MAX_NODE_GROUPS], |sorted| - MAX_NODE_GROUPS) else (sorted, 0)
  }

  /**
   * The cap of eight never hides a blocked group behind one that is not, nor a larger one behind a smaller
   * of its kind, and what it hides is counted.
   */
  lemma BlockedShownFirst(groups: seq<Group>, g: Group, shown: Group)
    requires g in groups && g !in Shown(groups).0
    ensures shown in Shown(groups).0 && g.blocked ==> shown.blocked
    ensures shown in Shown(groups).0 && shown.blocked == g.blocked ==> shown.count >= g.count
    ensures |Shown(groups).0| == 8 && |Shown(groups).0| + Shown(groups).1 == |groups|
  {
    SortSorts(ShownBefore, groups);
    SortHas(ShownBefore, groups, g);
    var sorted := Sort(ShownBefore, groups);
    var i :| 0 <= i < |sorted| && sorted[i] == g;
    if shown in Shown(groups).0 {
      var j :| 0 <= j < |Shown(groups).0| && Shown(groups).0[j] == shown;
      assert sorted[j] == shown;
      assert i >= |Shown(groups).0|;
      assert !ShownBefore(sorted[i], sorted[j]);
    }
  }
}
