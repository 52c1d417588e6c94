/**
 * The persisted projection of a run. JSON and gzip are an injective encoding of an envelope with
 * arbitrary sizes: packed is the compressed length a store's ceiling is compared with, raw the
 * length decoding has to inflate.
 */
module Envelopes {
  import opened Wrappers
  import opened Runs
  import opened EngineSpec
  import opened Ordering
  import opened Recovery

  const ENVELOPE_VERSION := 1
  const DECOMPRESS_MULTIPLIER := 11
  const EPHEMERAL := {"bundle.path"}

  /** A hand-kept projection: every field is listed, so a field without a producer is a lost one. */
  datatype Envelope = Envelope(
    version: int, id: string, state: State, phase: Phase, decisions: map<string, string>, pending: seq<string>,
    components: seq<ComponentState>, stepIndex: int, err: string, startedAt: nat, updatedAt: nat,
    artifacts: map<string, Bytes>, truncated: seq<string>, workload: Workload, cleanupUnconfirmed: bool,
    ownership: Ownership, residue: Residue, clusterUID: string, toolchain: map<string, string>,
    agentNamespace: AgentNamespace, validation: Validation)

  datatype Codec = Codec(packed: Envelope -> nat, raw: Envelope -> nat)

  /** What a run file holds: an encoded envelope, or bytes that do not decode. */
  datatype Blob = Packed(env: Envelope) | Garbage

  function ToEnvelope(r: Run): Envelope {
    Envelope(ENVELOPE_VERSION, r.id, r.state, r.phase, r.decisions, r.pending, r.components, r.stepIndex, r.err,
             r.startedAt, r.updatedAt, r.artifacts - EPHEMERAL, r.truncated, r.workload, r.cleanupUnconfirmed,
             r.ownership, r.residue, r.clusterUID, r.toolchain, r.agentNamespace, r.validation)
  }

  function FromEnvelope(e: Envelope): Run {
    Run(e.id, e.state, e.phase, e.decisions, e.artifacts, e.pending, e.components, e.workload, e.stepIndex, e.err,
        e.cleanupUnconfirmed, e.clusterUID, e.toolchain, e.startedAt, e.updatedAt, e.truncated, e.ownership,
        e.residue, e.validation, e.agentNamespace)
  }

  // ---- which artifact goes first ----

  /** The shedding order: longer first, and among equals the smaller key. */
  predicate Before(a: map<string, Bytes>, j: string, k: string)
    requires j in a && k in a
  {
    |a[j]| > |a[k]| || (|a[j]| == |a[k]| && Less(j, k))
  }

  predicate IsLargest(a: map<string, Bytes>, k: string) {
    k in a && forall j :: j in a && j != k ==> Before(a, k, j)
  }

  lemma LargestUnique(a: map<string, Bytes>, j: string, k: string)
    requires IsLargest(a, j) && IsLargest(a, k)
    ensures j == k
  {
    if j != k {
      assert Before(a, j, k) && Before(a, k, j);
      LessAsymmetric(j, k);
    }
  }

  /** A scan in whatever order the map yields its keys; the answer does not depend on it. */
  method LargestArtifact(a: map<string, Bytes>) returns (best: string)
    requires a != map[]
    ensures IsLargest(a, best)
  {
    best := "";
    var found := false;
    var keys := a.Keys;
    while keys != {}
      invariant keys <= a.Keys
      invariant !found ==> keys == a.Keys
      invariant found ==> best in a && best !in keys
      invariant found ==> forall j :: j in a && j !in keys && j != best ==> Before(a, best, j)
      decreases |keys|
    {
      var k :| k in keys;
      if !found || |a[k]| > |a[best]| {
        forall j | found && j in a && j !in keys && j != best ensures Before(a, k, j) {
          assert Before(a, best, j);
        }
        best, found := k, true;
      } else if |a[k]| == |a[best]| && Less(k, best) {
        forall j | j in a && j !in keys && j != best ensures Before(a, k, j) {
          assert Before(a, best, j);
          if |a[best]| == |a[j]| { LessTransitive(k, best, j); }
        }
        best := k;
      } else {
        LessTotal(k, best);
      }
      keys := keys - {k};
    }
    assert a.Keys != {};
  }

  lemma {:induction false} SomeLargest(a: map<string, Bytes>)
    requires a != map[]
    ensures exists k :: IsLargest(a, k)
    decreases |a|
  {
    var x :| x in a;
    var rest := a - {x};
    if rest == map[] {
      forall j | j in a && j != x ensures j in rest {}
      assert IsLargest(a, x);
    } else {
      assert |rest| < |a| by { assert rest.Keys < a.Keys; Smaller(rest, a); }
      SomeLargest(rest);
      var k :| IsLargest(rest, k);
      LessTotal(x, k);
      if Before(a, x, k) {
        forall j | j in a && j != x ensures Before(a, x, j) {
          if j != k {
            assert Before(rest, k, j);
            if |a[k]| == |a[j]| && |a[x]| == |a[k]| { LessTransitive(x, k, j); }
          }
        }
        assert IsLargest(a, x);
      } else {
        forall j | j in a && j != k ensures Before(a, k, j) {
          if j != x { assert Before(rest, k, j); }
        }
        assert IsLargest(a, k);
      }
    }
  }

  lemma Smaller(a: map<string, Bytes>, b: map<string, Bytes>)
    requires a.Keys < b.Keys
    ensures |a| < |b|
  {
    SubsetSmaller(a.Keys, b.Keys);
  }

  lemma SubsetSmaller(a: set<string>, b: set<string>)
    requires a < b
    ensures |a| < |b|
  {
    assert b == a + (b - a);
    assert |b| == |a| + |b - a|;
  }

  ghost function Largest(a: map<string, Bytes>): (k: string)
    requires a != map[]
    ensures IsLargest(a, k)
  {
    SomeLargest(a);
    var k :| IsLargest(a, k);
    k
  }

  // ---- encoding ----

  function Drop(e: Envelope, k: string): Envelope {
    e.(artifacts := e.artifacts - {k}, truncated := e.truncated + [k])
  }

  /** Shed one artifact at a time until the envelope fits, or give up when none is left. */
  ghost function Fitted(c: Codec, e: Envelope, ceiling: nat): Option<Envelope>
    decreases |e.artifacts|
  {
    if c.packed(e) <= ceiling then Some(e)
    else if e.artifacts == map[] then None
    else
      var k := Largest(e.artifacts);
      assert (e.artifacts - {k}).Keys < e.artifacts.Keys;
      Smaller(e.artifacts - {k}, e.artifacts);
      Fitted(c, Drop(e, k), ceiling)
  }

  method EncodeRun(c: Codec, r: Run, ceiling: nat) returns (res: Result<Envelope>)
    ensures res == (match Fitted(c, ToEnvelope(r), ceiling) case Some(e) => Ok(e) case None => Err(InvalidRequest))
  {
    var env := ToEnvelope(r);
    while |env.artifacts| > 0 && c.packed(env) > ceiling
      invariant Fitted(c, env, ceiling) == Fitted(c, ToEnvelope(r), ceiling)
      decreases |env.artifacts|
    {
      var key := LargestArtifact(env.artifacts);
      LargestUnique(env.artifacts, key, Largest(env.artifacts));
      assert (env.artifacts - {key}).Keys < env.artifacts.Keys;
      Smaller(env.artifacts - {key}, env.artifacts);
      env := Drop(env, key);
    }
    if c.packed(env) > ceiling { return Err(InvalidRequest); }
    return Ok(env);
  }

  // ---- shedding is exact ----

  /** e with the artifacts of keys gone, in that order. */
  function Without(e: Envelope, keys: seq<string>): Envelope {
    e.(artifacts := e.artifacts - (set k | k in keys), truncated := e.truncated + keys)
  }

  /** keys are the first artifacts of the shedding order: each comes before every one after it and every one kept. */
  predicate FirstInOrder(a: map<string, Bytes>, keys: seq<string>) {
    && (forall i :: 0 <= i < |keys| ==> keys[i] in a)
    && (forall i, j :: 0 <= i < j < |keys| ==> Before(a, keys[i], keys[j]))
    && (forall i, k :: 0 <= i < |keys| && k in a && k !in keys ==> Before(a, keys[i], k))
  }

  /** So what goes is longest first, then by key, and nothing kept is longer than anything that went. */
  lemma LongestGoFirst(a: map<string, Bytes>, keys: seq<string>)
    requires FirstInOrder(a, keys)
    ensures forall i, j :: 0 <= i < j < |keys| ==>
              |a[keys[j]]| < |a[keys[i]]| || (|a[keys[j]]| == |a[keys[i]]| && Less(keys[i], keys[j]))
    ensures forall i, k :: 0 <= i < |keys| && k in a && k !in keys ==>
              |a[k]| < |a[keys[i]]| || (|a[k]| == |a[keys[i]]| && Less(keys[i], k))
  {
  }

  /** keys, and no shorter prefix of them, have to go for e to fit. */
  predicate ShortestShed(c: Codec, e: Envelope, ceiling: nat, keys: seq<string>) {
    && FirstInOrder(e.artifacts, keys)
    && forall n :: 0 <= n < |keys| ==> c.packed(Without(e, keys[..n])) > ceiling
  }

  /**
   * Encoding drops exactly the shortest prefix of the shedding order that makes the record fit, and
   * fails only when dropping every artifact does not.
   */
  lemma {:induction false} ShedsShortestPrefix(c: Codec, e: Envelope, ceiling: nat) returns (keys: seq<string>)
    ensures ShortestShed(c, e, ceiling, keys)
    ensures match Fitted(c, e, ceiling)
            case Some(f) => f == Without(e, keys) && c.packed(f) <= ceiling
            case None => (forall k :: k in e.artifacts ==> k in keys) && c.packed(Without(e, keys)) > ceiling
    decreases |e.artifacts|
  {
    hide Before;
    if c.packed(e) <= ceiling || e.artifacts == map[] {
      keys := [];
      DropNone(e);
    } else {
      var k := Largest(e.artifacts);
      assert (e.artifacts - {k}).Keys < e.artifacts.Keys;
      Smaller(e.artifacts - {k}, e.artifacts);
      var rest := ShedsShortestPrefix(c, Drop(e, k), ceiling);
      keys := [k] + rest;
      PrependShed(c, e, ceiling, k, rest);
    }
  }

  /** Shedding the largest first leaves the rest to be shed as from an envelope without it. */
  lemma PrependShed(c: Codec, e: Envelope, ceiling: nat, k: string, rest: seq<string>)
    requires IsLargest(e.artifacts, k) && c.packed(e) > ceiling && ShortestShed(c, Drop(e, k), ceiling, rest)
    ensures ShortestShed(c, e, ceiling, [k] + rest) && Without(e, [k] + rest) == Without(Drop(e, k), rest)
  {
    hide IsLargest, FirstInOrder, Without;
    var keys := [k] + rest;
    PrependLargest(e.artifacts, k, rest);
    DropFirst(e, k, rest);
    forall n | 0 <= n < |keys| ensures c.packed(Without(e, keys[..n])) > ceiling {
      if n > 0 {
        assert keys[..n] == [k] + rest[..n - 1];
        DropFirst(e, k, rest[..n - 1]);
      } else {
        DropNone(e);
      }
    }
  }

  lemma DropNone(e: Envelope)
    ensures Without(e, []) == e
  {
  }

  lemma DropFirst(e: Envelope, k: string, rest: seq<string>)
    ensures Without(e, [k] + rest) == Without(Drop(e, k), rest)
  {
    var keys := [k] + rest;
    assert (set x | x in keys) == {k} + (set x | x in rest) by {
      forall x ensures x in keys <==> x == k || x in rest {}
    }
    assert e.artifacts - (set x | x in keys) == e.artifacts - {k} - (set x | x in rest);
    assert e.truncated + keys == e.truncated + [k] + rest;
  }

  lemma PrependLargest(a: map<string, Bytes>, k: string, rest: seq<string>)
    requires IsLargest(a, k) && FirstInOrder(a - {k}, rest)
    ensures FirstInOrder(a, [k] + rest)
  {
    var keys := [k] + rest;
    forall i, j | 0 <= i < j < |keys| ensures keys[i] in a && keys[j] in a && Before(a, keys[i], keys[j]) {
      if i > 0 { assert Before(a - {k}, rest[i - 1], rest[j - 1]); }
    }
    forall i, x | 0 <= i < |keys| && x in a && x !in keys ensures keys[i] in a && Before(a, keys[i], x) {
      if i > 0 { assert x !in rest && x in a - {k}; assert Before(a - {k}, rest[i - 1], x); }
    }
  }

  /** The shedding order is strict, so there is one such prefix of each length. */
  lemma {:induction false} OrderDeterminesPrefix(a: map<string, Bytes>, x: seq<string>, y: seq<string>)
    requires FirstInOrder(a, x) && FirstInOrder(a, y) && |x| == |y|
    ensures x == y
  {
    if x != [] {
      var k := |x| - 1;
      if x[0] != y[0] {
        if x[0] !in y {
          assert Before(a, y[0], x[0]);
        } else {
          var j :| 0 <= j < |y| && y[j] == x[0];
          assert Before(a, y[0], y[j]);
        }
        if y[0] !in x {
          assert Before(a, x[0], y[0]);
        } else {
          var j :| 0 <= j < |x| && x[j] == y[0];
          assert Before(a, x[0], x[j]);
        }
        LessAsymmetric(x[0], y[0]);
      }
      DropFirstInOrder(a, x);
      DropFirstInOrder(a, y);
      OrderDeterminesPrefix(a - {x[0]}, x[1..], y[1..]);
      assert x == [x[0]] + x[1..] && y == [y[0]] + y[1..];
    }
  }

  lemma DropFirstInOrder(a: map<string, Bytes>, x: seq<string>)
    requires FirstInOrder(a, x) && x != []
    ensures FirstInOrder(a - {x[0]}, x[1..])
  {
    var rest := x[1..];
    forall i | 0 <= i < |rest| ensures rest[i] in a - {x[0]} {
      assert Before(a, x[0], x[i + 1]);
      LessIrreflexive(x[0]);
    }
    forall i, j | 0 <= i < j < |rest| ensures Before(a - {x[0]}, rest[i], rest[j]) {
      assert Before(a, x[i + 1], x[j + 1]);
    }
    forall i, k | 0 <= i < |rest| && k in a - {x[0]} && k !in rest ensures Before(a - {x[0]}, rest[i], k) {
      assert k !in x;
      assert Before(a, x[i + 1], k);
    }
  }

  // ---- decoding ----

  function DecodeRun(c: Codec, b: Blob, ceiling: nat): Result<Run> {
    match b
    case Garbage => Err(InvalidRequest)
    case Packed(e) =>
      if c.raw(e) > ceiling * DECOMPRESS_MULTIPLIER then Err(InvalidRequest)
      else if e.version != ENVELOPE_VERSION then Err(InvalidRequest)
      else Ok(FromEnvelope(e))
  }

  /** What comes back of a run that was encoded: everything but ephemeral and shed artifacts. */
  function Projected(r: Run, shed: seq<string>): Run {
    r.(artifacts := r.artifacts - EPHEMERAL - (set k | k in shed), truncated := r.truncated + shed)
  }

  /**
   * Decoding what encoding wrote gives back every field, less the ephemeral artifacts and exactly
   * those named in the extended Truncated; it fails exactly when the record inflates past the bound.
   */
  lemma RoundTrip(c: Codec, r: Run, ceiling: nat) returns (shed: seq<string>)
    requires Fitted(c, ToEnvelope(r), ceiling).Some?
    ensures ShortestShed(c, ToEnvelope(r), ceiling, shed)
    ensures var e := Fitted(c, ToEnvelope(r), ceiling).value;
            DecodeRun(c, Packed(e), ceiling)
            == (if c.raw(e) > 11 * ceiling then Err(InvalidRequest) else Ok(Projected(r, shed)))
  {
    shed := ShedsShortestPrefix(c, ToEnvelope(r), ceiling);
  }

  /** Bytes that are no record, a record that inflates past the bound, or one of another version are not read. */
  lemma ReadsExactly(c: Codec, b: Blob, ceiling: nat)
    ensures DecodeRun(c, b, ceiling).Ok? <==> b.Packed? && b.env.version == 1 && c.raw(b.env) <= 11 * ceiling
    ensures DecodeRun(c, b, ceiling).Err? ==> DecodeRun(c, b, ceiling) == Err(InvalidRequest)
  {
  }

  /** A truncated record re-encodes to itself: what was shed once is never shed twice. */
  lemma ReencodesToItself(c: Codec, r: Run, ceiling: nat)
    requires Fitted(c, ToEnvelope(r), ceiling).Some?
    ensures var e := Fitted(c, ToEnvelope(r), ceiling).value;
            ToEnvelope(FromEnvelope(e)) == e && Fitted(c, ToEnvelope(FromEnvelope(e)), ceiling) == Some(e)
  {
    var shed := ShedsShortestPrefix(c, ToEnvelope(r), ceiling);
    var e := Fitted(c, ToEnvelope(r), ceiling).value;
    assert e.artifacts - EPHEMERAL == e.artifacts;
  }

  /** What a crash leaves of a run once saved: its record, encoded, read back and recovered. */
  ghost function AfterCrash(c: Codec, ceiling: nat, e: Eng, w: Wiring, b: int, r: Run): Eng
    requires Fitted(c, ToEnvelope(r), ceiling).Some?
  {
    match DecodeRun(c, Packed(Fitted(c, ToEnvelope(r), ceiling).value), ceiling)
    case Ok(loaded) => Restarted(e, w, b, loaded)
    case Err(_) => AfterLoad(e, RecoverSpec(w, Some(b), Coded(InvalidRequest)))
  }

  /** The record is small enough, inflated, to be read back. */
  ghost predicate Readable(c: Codec, ceiling: nat, r: Run) {
    && Fitted(c, ToEnvelope(r), ceiling).Some?
    && c.raw(Fitted(c, ToEnvelope(r), ceiling).value) <= ceiling * DECOMPRESS_MULTIPLIER
  }

  /**
   * The whole crash path: a run is saved, the process dies, the record is loaded, validated and
   * recovered. A recoverable run is in place again exactly when its record can be read back, and its
   * guards then read as the saved run's own fields say.
   */
  lemma SavedGuardsHold(c: Codec, ceiling: nat, e: Eng, w: Wiring, b: int, r: Run)
    requires FreshProcess(e) && Recoverable(w, r) && Fitted(c, ToEnvelope(r), ceiling).Some?
    ensures var e' := AfterCrash(c, ceiling, e, w, b, r);
            && (Holds(e', r.id) <==> Readable(c, ceiling, r)) && (StartRefusal(e').Some? <==> Readable(c, ceiling, r))
            && (Readable(c, ceiling, r) ==>
                  && "bundle.path" !in e'.current.value.artifacts && !IsLive(e'.current.value.state)
                  && (DiscardRefusal(e', r.id).Some? <==>
                        r.state == Active || r.state == Resetting || r.residue.incomplete ||
                          (r.cleanupUnconfirmed && r.state != Done))
                  && (RetryRefusal(e', r.id).Some? <==>
                        r.state == Active || r.state == Done || r.state == Resetting || r.residue.incomplete))
  {
    var shed := RoundTrip(c, r, ceiling);
    var loaded := Projected(r, shed);
    assert Recoverable(w, loaded);
    RecoveredIsQuiet(e, w, b, loaded);
    CrashKeepsDiscardGuard(e, w, b, loaded);
    CrashKeepsRetryGuard(e, w, b, loaded);
  }
}
