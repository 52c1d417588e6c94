/**
 * Where runs are kept. The memory store is the simple one; the file store keeps one file per run
 * and a pointer file naming the current one, so its Save and Delete are two updates each, with a
 * fault or a crash possible between them.
 */
module Stores {
  import opened Wrappers
  import opened Runs
  import opened Envelopes

  /** 64 MiB. */
  const FILE_PAYLOAD_CEILING := 0x400_0000

  /** The run files by run ID, and the pointer file's content if there is one. */
  datatype Disk = Disk(runs: map<string, Blob>, pointer: Option<string>)

  datatype Mem = Mem(runs: map<string, Run>, current: string)

  const EMPTY_DISK := Disk(map[], None)
  const EMPTY_MEM := Mem(map[], "")

  // ---- the file store on disks ----

  ghost function Encoded(c: Codec, r: Run): Option<Envelope> { Fitted(c, ToEnvelope(r), FILE_PAYLOAD_CEILING) }

  function WriteRun(d: Disk, id: string, e: Envelope): Disk { d.(runs := d.runs[id := Packed(e)]) }

  function WritePointer(d: Disk, id: string): Disk { d.(pointer := Some(id)) }

  function RemoveRun(d: Disk, id: string): Disk { d.(runs := d.runs - {id}) }

  function RemovePointer(d: Disk): Disk { d.(pointer := None) }

  function LoadFrom(c: Codec, d: Disk, id: string): Result<Run> {
    if id !in d.runs then Err(NotFound) else DecodeRun(c, d.runs[id], FILE_PAYLOAD_CEILING)
  }

  /** A pointer whose record is missing is Internal, never NotFound: unreadable is not absent. */
  function LoadCurrentFrom(c: Codec, d: Disk): Result<Run> {
    match d.pointer
    case None => Err(NotFound)
    case Some(id) =>
      if id == "" then Err(NotFound)
      else if LoadFrom(c, d, id) == Err(NotFound) then Err(Internal)
      else LoadFrom(c, d, id)
  }

  /** The file store with every file operation succeeding. */
  ghost function SavedTo(c: Codec, d: Disk, r: Run): Disk {
    match Encoded(c, r)
    case None => d
    case Some(e) => WritePointer(WriteRun(d, r.id, e), r.id)
  }

  function DeletedFrom(d: Disk): Disk {
    match d.pointer
    case None => d
    case Some(id) => RemovePointer(RemoveRun(d, id))
  }

  /** A record that packs into 64 MiB is kept whole, but for its bundle path. */
  lemma SmallIsKeptWhole(c: Codec, d: Disk, r: Run)
    requires c.packed(ToEnvelope(r)) <= 64 * 1024 * 1024 && c.raw(ToEnvelope(r)) <= 11 * 64 * 1024 * 1024
    ensures LoadFrom(c, SavedTo(c, d, r), r.id) == Ok(r.(artifacts := r.artifacts - {"bundle.path"}))
  {
  }

  // ---- the stores as objects ----

  class FileStore {
    const codec: Codec
    var runs: map<string, Blob>
    var pointer: Option<string>

    function Abs(): Disk
      reads this
    {
      Disk(runs, pointer)
    }

    constructor (c: Codec)
      ensures codec == c && Abs() == EMPTY_DISK
    {
      codec, runs, pointer := c, map[], None;
    }

    /** runOk and pointerOk: whether the atomic write of each file succeeds. */
    method Save(r: Run, runOk: bool, pointerOk: bool) returns (res: Result<()>)
      modifies this
      ensures res.Ok? <==> Encoded(codec, r).Some? && runOk && pointerOk
      ensures res.Ok? ==> Abs() == SavedTo(codec, old(Abs()), r)
      ensures Encoded(codec, r).None? || !runOk ==> Abs() == old(Abs())
      ensures Encoded(codec, r).Some? && runOk && !pointerOk ==>
              Abs() == WriteRun(old(Abs()), r.id, Encoded(codec, r).value)
    {
      var encoded := EncodeRun(codec, r, FILE_PAYLOAD_CEILING);
      if encoded.Err? { return Err(encoded.code); }
      if !runOk { return Err(Internal); }
      runs := runs[r.id := Packed(encoded.value)];
      if !pointerOk { return Err(Internal); }
      pointer := Some(r.id);
      return Ok(());
    }

    method Load(id: string, readOk: bool) returns (res: Result<Run>)
      ensures res == (if id in runs && !readOk then Err(Internal) else LoadFrom(codec, Abs(), id))
    {
      if id !in runs { return Err(NotFound); }
      if !readOk { return Err(Internal); }
      res := DecodeRun(codec, runs[id], FILE_PAYLOAD_CEILING);
    }

    /** NotFound only ever means there is no current run, however the reads go. */
    method LoadCurrent(pointerOk: bool, readOk: bool) returns (res: Result<Run>)
      ensures pointerOk && readOk ==> res == LoadCurrentFrom(codec, Abs())
      ensures res == Err(NotFound) <==> pointer.None? || (pointer == Some("") && pointerOk)
    {
      if pointer.None? { return Err(NotFound); }
      if !pointerOk { return Err(Internal); }
      if |pointer.value| == 0 { return Err(NotFound); }
      res := Load(pointer.value, readOk);
      if res == Err(NotFound) { return Err(Internal); }
    }

    /** readOk, runOk and pointerOk: whether reading the pointer and removing each file succeeds. */
    method Delete(readOk: bool, runOk: bool, pointerOk: bool) returns (res: Result<()>)
      modifies this
      ensures res.Ok? <==> pointer.None? && (old(pointer).None? || (readOk && runOk && pointerOk))
      ensures res.Ok? ==> Abs() == DeletedFrom(old(Abs()))
      ensures !res.Ok? ==>
              old(pointer).Some? &&
              Abs() == (if readOk && runOk then RemoveRun(old(Abs()), old(pointer).value) else old(Abs()))
    {
      if pointer.None? { return Ok(()); }
      if !readOk { return Err(Internal); }
      if !runOk { return Err(Internal); }
      runs := runs - {pointer.value};
      if !pointerOk { return Err(Internal); }
      pointer := None;
      return Ok(());
    }
  }

  class MemoryStore {
    var runs: map<string, Run>
    var current: string

    function Abs(): Mem
      reads this
    {
      Mem(runs, current)
    }

    constructor ()
      ensures Abs() == EMPTY_MEM
    {
      runs, current := map[], "";
    }

    method Save(r: Run)
      modifies this
      ensures Abs() == Mem(old(runs)[r.id := r], r.id)
    {
      runs := runs[r.id := r];
      current := r.id;
    }

    method Load(id: string) returns (res: Result<Run>)
      ensures res == (if id in runs then Ok(runs[id]) else Err(NotFound))
    {
      if id !in runs { return Err(NotFound); }
      return Ok(runs[id]);
    }

    method LoadCurrent() returns (res: Result<Run>)
      ensures res == (if current != "" && current in runs then Ok(runs[current]) else Err(NotFound))
    {
      if current == "" { return Err(NotFound); }
      if current !in runs { return Err(NotFound); }
      return Ok(runs[current]);
    }

    method Delete()
      modifies this
      ensures Abs() == Mem(old(runs) - {old(current)}, "")
    {
      runs := runs - {current};
      current := "";
    }
  }

  // ---- the file store refines the memory store ----

  datatype Op = OpSave(run: Run) | OpLoad(id: string) | OpLoadCurrent | OpDelete

  /** What one operation makes of a store, and what a caller sees of it. */
  ghost function FileStep(c: Codec, d: Disk, op: Op): (Disk, Result<Option<Run>>) {
    match op
    case OpSave(r) => (SavedTo(c, d, r), if Encoded(c, r).Some? then Ok(None) else Err(InvalidRequest))
    case OpLoad(id) => (d, Seen(LoadFrom(c, d, id)))
    case OpLoadCurrent => (d, Seen(LoadCurrentFrom(c, d)))
    case OpDelete => (DeletedFrom(d), Ok(None))
  }

  function MemStep(m: Mem, op: Op): (Mem, Result<Option<Run>>) {
    match op
    case OpSave(r) => (Mem(m.runs[r.id := r], r.id), Ok(None))
    case OpLoad(id) => (m, if id in m.runs then Ok(Some(m.runs[id])) else Err(NotFound))
    case OpLoadCurrent => (m, if m.current != "" &&
      m.current in m.runs then Ok(Some(m.runs[m.current])) else Err(NotFound))
    case OpDelete => (Mem(m.runs - {m.current}, ""), Ok(None))
  }

  function Seen(r: Result<Run>): Result<Option<Run>> {
    match r case Ok(run) => Ok(Some(run)) case Err(code) => Err(code)
  }

  /** What the file store gives back of a run it took. */
  ghost predicate Keepable(c: Codec, r: Run) {
    Encoded(c, r).Some? && c.raw(Encoded(c, r).value) <= FILE_PAYLOAD_CEILING * DECOMPRESS_MULTIPLIER
  }

  ghost function Kept(c: Codec, r: Run): Run
    requires Keepable(c, r)
  {
    FromEnvelope(Encoded(c, r).value)
  }

  ghost function KeptAnswer(c: Codec, a: Result<Option<Run>>): Result<Option<Run>> {
    match a
    case Ok(Some(r)) => if Keepable(c, r) then Ok(Some(Kept(c, r))) else a
    case _ => a
  }

  ghost predicate Refines(c: Codec, d: Disk, m: Mem) {
    && "" !in m.runs && d.runs.Keys == m.runs.Keys
    && (forall id :: id in m.runs ==>
        Keepable(c, m.runs[id]) && m.runs[id].id == id && d.runs[id] == Packed(Encoded(c, m.runs[id]).value))
    && (if m.current == "" then d.pointer == None else d.pointer == Some(m.current) && m.current in m.runs)
  }

  /** The operations the refinement covers: every saved run has an ID and comes back at all. */
  ghost predicate Covered(c: Codec, op: Op) { op.OpSave? ==> op.run.id != "" && Keepable(c, op.run) }

  lemma SaveRefines(c: Codec, d: Disk, m: Mem, r: Run)
    requires Refines(c, d, m) && r.id != "" && Keepable(c, r)
    ensures Refines(c, SavedTo(c, d, r), Mem(m.runs[r.id := r], r.id))
  {
  }

  lemma DeleteRefines(c: Codec, d: Disk, m: Mem)
    requires Refines(c, d, m)
    ensures Refines(c, DeletedFrom(d), Mem(m.runs - {m.current}, ""))
  {
    if m.current == "" {
      assert m.runs - {""} == m.runs;
    }
  }

  /** A record in both stores reads the same from either. */
  lemma LoadRefines(c: Codec, d: Disk, m: Mem, id: string)
    requires Refines(c, d, m)
    ensures LoadFrom(c, d, id) == (if id in m.runs then Ok(Kept(c, m.runs[id])) else Err(NotFound))
  {
    if id in m.runs {
      var e := Encoded(c, m.runs[id]).value;
      assert d.runs[id] == Packed(e);
      var shed := ShedsShortestPrefix(c, ToEnvelope(m.runs[id]), FILE_PAYLOAD_CEILING);
    }
  }

  /** One operation keeps the stores in step and is answered alike. */
  lemma StepRefines(c: Codec, d: Disk, m: Mem, op: Op)
    requires Refines(c, d, m) && Covered(c, op)
    ensures Refines(c, FileStep(c, d, op).0, MemStep(m, op).0)
    ensures FileStep(c, d, op).1 == KeptAnswer(c, MemStep(m, op).1)
  {
    match op
    case OpSave(r) => SaveRefines(c, d, m, r);
    case OpLoad(id) => LoadRefines(c, d, m, id);
    case OpLoadCurrent => LoadRefines(c, d, m, m.current);
    case OpDelete => DeleteRefines(c, d, m);
  }

  ghost function FileAfter(c: Codec, d: Disk, ops: seq<Op>): Disk {
    if ops == [] then d else FileStep(c, FileAfter(c, d, ops[..|ops| - 1]), ops[|ops| - 1]).0
  }

  function MemAfter(m: Mem, ops: seq<Op>): Mem {
    if ops == [] then m else MemStep(MemAfter(m, ops[..|ops| - 1]), ops[|ops| - 1]).0
  }

  lemma {:induction false} RunsRefine(c: Codec, d: Disk, m: Mem, ops: seq<Op>)
    requires Refines(c, d, m) && forall i :: 0 <= i < |ops| ==> Covered(c, ops[i])
    ensures Refines(c, FileAfter(c, d, ops), MemAfter(m, ops))
  {
    if ops == [] {
    } else {
      RunsRefine(c, d, m, ops[..|ops| - 1]);
      StepRefines(c, FileAfter(c, d, ops[..|ops| - 1]), MemAfter(m, ops[..|ops| - 1]), ops[|ops| - 1]);
    }
  }

  /**
   * After any sequence of operations on fresh stores, the file store answers the next one as the
   * memory store does, each run as the encoding projects it.
   */
  lemma FileStoreRefines(c: Codec, ops: seq<Op>, op: Op)
    requires (forall i :: 0 <= i < |ops| ==> Covered(c, ops[i])) && Covered(c, op)
    ensures FileStep(c, FileAfter(c, EMPTY_DISK, ops), op).1 == KeptAnswer(c, MemStep(MemAfter(EMPTY_MEM, ops), op).1)
  {
    RunsRefine(c, EMPTY_DISK, EMPTY_MEM, ops);
    StepRefines(c, FileAfter(c, EMPTY_DISK, ops), MemAfter(EMPTY_MEM, ops), op);
  }

  lemma AfterFour(c: Codec, d: Disk, m: Mem, ops: seq<Op>)
    requires |ops| == 4
    ensures FileAfter(c, d, ops) == FileStep(c, FileStep(c, FileStep(c, FileStep(c, d, ops[0]).0, ops[1]).0, ops[2]).0,
            ops[3]).0
    ensures MemAfter(m, ops) == MemStep(MemStep(MemStep(MemStep(m, ops[0]).0, ops[1]).0, ops[2]).0, ops[3]).0
  {
    assert ops[..3][..2] == ops[..2] && ops[..2][..1] == ops[..1] && ops[..1][..0] == [];
    assert FileAfter(c, d, ops[..1]) == FileStep(c, d, ops[0]).0 && MemAfter(m, ops[..1]) == MemStep(m, ops[0]).0;
    assert FileAfter(c, d, ops[..2]) == FileStep(c, FileAfter(c, d, ops[..1]), ops[1]).0;
    assert MemAfter(m, ops[..2]) == MemStep(MemAfter(m, ops[..1]), ops[1]).0;
    assert FileAfter(c, d, ops[..3]) == FileStep(c, FileAfter(c, d, ops[..2]), ops[2]).0;
    assert MemAfter(m, ops[..3]) == MemStep(MemAfter(m, ops[..2]), ops[2]).0;
  }

  /**
   * An empty run ID is where they part: the memory store takes its own "no current run" marker for
   * a key, so a second Delete drops a record the file store keeps. The engine's generator never makes
   * such an ID; only a caller of the stores could.
   */
  lemma EmptyIdDiverges(c: Codec, blank: Run, other: Run)
    requires Keepable(c, blank) && Keepable(c, other) && blank.id == "" && other.id != ""
    ensures var ops := [OpSave(blank), OpSave(other), OpDelete, OpDelete];
            && MemStep(MemAfter(EMPTY_MEM, ops), OpLoad("")).1 == Err(NotFound)
            && FileStep(c, FileAfter(c, EMPTY_DISK, ops), OpLoad("")).1 == Ok(Some(Kept(c, blank)))
  {
    var ops := [OpSave(blank), OpSave(other), OpDelete, OpDelete];
    AfterFour(c, EMPTY_DISK, EMPTY_MEM, ops);
    var d1, m1 := FileStep(c, EMPTY_DISK, ops[0]).0, MemStep(EMPTY_MEM, ops[0]).0;
    var d2, m2 := FileStep(c, d1, ops[1]).0, MemStep(m1, ops[1]).0;
    var d3, m3 := FileStep(c, d2, ops[2]).0, MemStep(m2, ops[2]).0;
    assert d3 == DeletedFrom(d2) && FileAfter(c, EMPTY_DISK, ops) == d3;
    assert d3.runs[""] == Packed(Encoded(c, blank).value);
    assert "" !in MemAfter(EMPTY_MEM, ops).runs;
    var shed := ShedsShortestPrefix(c, ToEnvelope(blank), FILE_PAYLOAD_CEILING);
  }

  // ---- crashes ----

  /** The disk after a Save died with n of its two renames done. */
  ghost function CrashedSave(c: Codec, d: Disk, r: Run, n: nat): Disk
    requires Encoded(c, r).Some?
  {
    if n == 0 then d else if n == 1 then WriteRun(d, r.id, Encoded(c, r).value) else SavedTo(c, d, r)
  }

  /** The disk after a Delete died with n of its two removals done. */
  function CrashedDelete(d: Disk, n: nat): Disk
    requires d.pointer.Some?
  {
    if n == 0 then d else if n == 1 then RemoveRun(d, d.pointer.value) else DeletedFrom(d)
  }

  /** The pointer, if there is one, names a record that is there. */
  predicate Sound(d: Disk) { d.pointer.Some? ==> d.pointer.value in d.runs }

  /** A crash anywhere in Save leaves the current record as it was before or as it would be after. */
  lemma SaveCrashIsAtomic(c: Codec, d: Disk, r: Run, n: nat)
    requires Encoded(c, r).Some?
    ensures var d' := CrashedSave(c, d, r, n);
            && (LoadCurrentFrom(c, d') == LoadCurrentFrom(c, d) ||
              LoadCurrentFrom(c, d') == LoadCurrentFrom(c, SavedTo(c, d, r)))
            && (Sound(d) ==> Sound(d'))
            && (forall id :: id != r.id ==> LoadFrom(c, d', id) == LoadFrom(c, d, id))
  {
  }

  /**
   * A crash in Delete may leave the pointer dangling. That reads as Internal, which recovery treats
   * as unreadable, never as NotFound, which it would take for a cold start; deleting again clears it.
   */
  lemma DeleteCrashNeverLooksAbsent(c: Codec, d: Disk, n: nat)
    requires d.pointer.Some? && d.pointer.value != "" && n <= 2
    ensures var d' := CrashedDelete(d, n);
            && (n == 1 ==> LoadCurrentFrom(c, d') == Err(Internal) && !Sound(d') && DeletedFrom(d') == DeletedFrom(d))
            && (LoadCurrentFrom(c, d') == Err(NotFound) <==> n == 2)
  {
    if n == 1 { assert d.runs - {d.pointer.value} - {d.pointer.value} == d.runs - {d.pointer.value}; }
  }
}
