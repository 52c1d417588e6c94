/**
 * The event bus as a value: everything published so far, and what each subscriber has been sent.
 * Bus.dfy keeps it in a ring buffer of fixed capacity.
 */
module BusSpec {
  import opened Wrappers

  const SUBSCRIBER_BUFFER := 256

  datatype Event = Event(id: nat, at: nat, level: string, message: string)

  /**
   * start is the index of the first event this subscriber was due; sent what went into its channel,
   * taken how much of that it has read, room the channel's capacity; firstDrop the index of the
   * first event skipped because the channel was full.
   */
  datatype Sub = Sub(start: nat, sent: seq<Event>, taken: nat, room: nat, firstDrop: Option<nat>)

  datatype BusState = BusState(history: seq<Event>, capacity: nat, subs: map<nat, Sub>, nextSub: nat)

  function Least(a: nat, b: nat): nat { if a < b then a else b }

  /** An empty level becomes info, a zero time the bus's own. */
  function Stamp(draft: Event, id: nat, now: nat): Event {
    Event(id, if draft.at == 0 then now else draft.at, if draft.level == "" then "info" else draft.level, draft.message)
  }

  /** The first event still retained. */
  function Oldest(s: BusState): nat { |s.history| - Least(|s.history|, s.capacity) }

  /** Where a replay from cursor begins: a cursor no live process can have issued counts as none. */
  function ReplayFrom(s: BusState, cursor: nat): nat {
    var c := if cursor > |s.history| then 0 else cursor;
    if c < Oldest(s) then Oldest(s) else c
  }

  function Since(s: BusState, cursor: nat): seq<Event> {
    s.history[ReplayFrom(s, cursor)..]
  }

  /** A full channel skips the event rather than wait. */
  function Offer(sub: Sub, e: Event, index: nat): Sub
    requires sub.taken <= |sub.sent|
  {
    if |sub.sent| - sub.taken < sub.room then sub.(sent := sub.sent + [e])
    else sub.(firstDrop := if sub.firstDrop.None? then Some(index) else sub.firstDrop)
  }

  predicate Readable(s: BusState) { forall k :: k in s.subs ==> s.subs[k].taken <= |s.subs[k].sent| }

  function Published(s: BusState, draft: Event, now: nat): BusState
    requires Readable(s)
  {
    var e := Stamp(draft, |s.history| + 1, now);
    s.(history := s.history + [e], subs := map k | k in s.subs :: Offer(s.subs[k], e, |s.history|))
  }

  function Subscribed(s: BusState, cursor: nat): BusState {
    var backlog := Since(s, cursor);
    s.(subs := s.subs[s.nextSub := Sub(ReplayFrom(s, cursor), backlog, 0, |backlog| + SUBSCRIBER_BUFFER, None)],
       nextSub := s.nextSub + 1)
  }

  function Unsubscribed(s: BusState, k: nat): BusState { s.(subs := s.subs - {k}) }

  function Received(s: BusState, k: nat): BusState
    requires k in s.subs && s.subs[k].taken < |s.subs[k].sent|
  {
    s.(subs := s.subs[k := s.subs[k].(taken := s.subs[k].taken + 1)])
  }

  // ---- what every run of the bus keeps ----

  /** IDs are consecutive from one. */
  predicate Numbered(history: seq<Event>) { forall i :: 0 <= i < |history| ==> history[i].id == i + 1 }

  /** What a channel carried is part of the history, each event later than the one before. */
  predicate InOrder(history: seq<Event>, sent: seq<Event>) {
    && (forall j :: 0 <= j < |sent| ==> 1 <= sent[j].id <= |history| && history[sent[j].id - 1] == sent[j])
    && (forall j, k :: 0 <= j < k < |sent| ==> sent[j].id < sent[k].id)
  }

  /** Up to its first drop a subscriber was sent everything it was due; after it, only later events. */
  predicate SubOk(history: seq<Event>, sub: Sub) {
    && sub.taken <= |sub.sent| && sub.start <= |history|
    && InOrder(history, sub.sent)
    && (forall j :: 0 <= j < |sub.sent| ==> sub.start < sub.sent[j].id)
    && match sub.firstDrop
       case None => sub.sent == history[sub.start..]
       case Some(k) =>
         && sub.start <= k < |history| && k - sub.start <= |sub.sent|
         && sub.sent[..k - sub.start] == history[sub.start..k]
         && (forall j :: k - sub.start <= j < |sub.sent| ==> sub.sent[j].id > k + 1)
  }

  predicate BusOk(s: BusState) {
    && s.capacity >= 1 && Numbered(s.history)
    && (forall k :: k in s.subs ==> k < s.nextSub && SubOk(s.history, s.subs[k]))
  }

  lemma OrderExtends(history: seq<Event>, sent: seq<Event>, e: Event)
    requires InOrder(history, sent) && e.id == |history| + 1
    ensures InOrder(history + [e], sent) && InOrder(history + [e], sent + [e])
  {
  }

  lemma SendKeeps(history: seq<Event>, sub: Sub, e: Event)
    requires SubOk(history, sub) && e.id == |history| + 1
    ensures SubOk(history + [e], sub.(sent := sub.sent + [e]))
  {
    OrderExtends(history, sub.sent, e);
    hide InOrder;
    var h, sent := history + [e], sub.sent + [e];
    if sub.firstDrop.None? {
      assert h[sub.start..] == history[sub.start..] + [e];
    } else {
      var k := sub.firstDrop.value;
      assert h[sub.start..k] == history[sub.start..k];
      assert sent[..k - sub.start] == sub.sent[..k - sub.start];
    }
  }

  lemma DropKeeps(history: seq<Event>, sub: Sub, e: Event)
    requires SubOk(history, sub) && e.id == |history| + 1
    ensures SubOk(history + [e], sub.(firstDrop := if sub.firstDrop.None? then Some(|history|) else sub.firstDrop))
  {
    OrderExtends(history, sub.sent, e);
    hide InOrder;
    var h := history + [e];
    if sub.firstDrop.None? {
      assert h[sub.start..|history|] == history[sub.start..];
      assert sub.sent[..|history| - sub.start] == sub.sent;
    } else {
      var k := sub.firstDrop.value;
      assert h[sub.start..k] == history[sub.start..k];
    }
  }

  lemma PublishKeeps(s: BusState, draft: Event, now: nat)
    requires BusOk(s)
    ensures BusOk(Published(s, draft, now))
  {
    var e := Stamp(draft, |s.history| + 1, now);
    forall k | k in s.subs ensures SubOk(s.history + [e], Offer(s.subs[k], e, |s.history|)) {
      OfferKeeps(s.history, s.subs[k], e);
    }
    hide SubOk, Offer;
  }

  lemma OfferKeeps(history: seq<Event>, sub: Sub, e: Event)
    requires SubOk(history, sub) && e.id == |history| + 1
    ensures SubOk(history + [e], Offer(sub, e, |history|))
  {
    SendKeeps(history, sub, e);
    DropKeeps(history, sub, e);
    hide SubOk;
  }

  lemma SubscribeKeeps(s: BusState, cursor: nat)
    requires BusOk(s)
    ensures BusOk(Subscribed(s, cursor)) && Subscribed(s, cursor).history == s.history
  {
    ReplayIsDue(s.history, ReplayFrom(s, cursor), |Since(s, cursor)| + SUBSCRIBER_BUFFER);
    hide SubOk, Numbered;
  }

  lemma ReplayIsDue(history: seq<Event>, from: nat, room: nat)
    requires Numbered(history) && from <= |history|
    ensures SubOk(history, Sub(from, history[from..], 0, room, None))
  {
    SuffixInOrder(history, from);
    hide InOrder, Numbered;
  }

  lemma SuffixInOrder(history: seq<Event>, from: nat)
    requires Numbered(history) && from <= |history|
    ensures InOrder(history, history[from..])
    ensures forall j :: 0 <= j < |history[from..]| ==> from < history[from..][j].id
  {
    var sent := history[from..];
    forall j | 0 <= j < |sent| ensures sent[j].id == from + j + 1 && history[sent[j].id - 1] == sent[j] {
      assert sent[j] == history[from + j];
    }
  }

  datatype BusOp = Publish(draft: Event, now: nat) | Subscribe(cursor: nat) | Unsubscribe(k: nat) | Receive(k: nat)

  function Operated(s: BusState, op: BusOp): BusState
    requires Readable(s)
  {
    match op
    case Publish(draft, now) => Published(s, draft, now)
    case Subscribe(cursor) => Subscribed(s, cursor)
    case Unsubscribe(k) => Unsubscribed(s, k)
    case Receive(k) => if k in s.subs && s.subs[k].taken < |s.subs[k].sent| then Received(s, k) else s
  }

  lemma OperateKeeps(s: BusState, op: BusOp)
    requires BusOk(s)
    ensures BusOk(Operated(s, op))
  {
    match op
    case Publish(draft, now) => PublishKeeps(s, draft, now);
    case Subscribe(cursor) => SubscribeKeeps(s, cursor);
    case _ =>
  }

  function Fresh(capacity: nat): BusState { BusState([], if capacity < 1 then 1 else capacity, map[], 0) }

  /** The bus after any sequence of operations. */
  function Ran(s: BusState, ops: seq<BusOp>): (t: BusState)
    requires BusOk(s)
    ensures BusOk(t) && t.capacity == s.capacity
  {
    if ops == [] then s
    else
      OperateKeeps(Ran(s, ops[..|ops| - 1]), ops[|ops| - 1]);
      Operated(Ran(s, ops[..|ops| - 1]), ops[|ops| - 1])
  }

  // ---- what is in it ----

  /** What was asked to be published, in order, and the bus's clock then. */
  function Drafts(ops: seq<BusOp>): seq<(Event, nat)> {
    if ops == [] then []
    else
      var op := ops[|ops| - 1];
      Drafts(ops[..|ops| - 1]) + if op.Publish? then [(op.draft, op.now)] else []
  }

  /** e is the n-th event: the draft with that ID, its level and time as given or else info and now. */
  predicate Carries(e: Event, draft: Event, now: nat, n: nat) {
    && e.id == n && e.message == draft.message
    && (draft.level != "" ==> e.level == draft.level) && (draft.level == "" ==> e.level == "info")
    && (draft.at != 0 ==> e.at == draft.at) && (draft.at == 0 ==> e.at == now)
  }

  /** What the bus has published is exactly what it was asked to, in order and numbered from one. */
  lemma {:induction false} HistoryIsPublished(capacity: nat, ops: seq<BusOp>)
    ensures var history := Ran(Fresh(capacity), ops).history;
            && |history| == |Drafts(ops)|
            && forall i :: 0 <= i < |history| ==> Carries(history[i], Drafts(ops)[i].0, Drafts(ops)[i].1, i + 1)
  {
    if ops != [] {
      HistoryIsPublished(capacity, ops[..|ops| - 1]);
    }
  }

  predicate Roomy(s: BusState) { forall k :: k in s.subs ==> s.subs[k].room >= 256 }

  lemma {:induction false} AlwaysRoomy(capacity: nat, ops: seq<BusOp>)
    ensures Roomy(Ran(Fresh(capacity), ops))
  {
    if ops != [] {
      AlwaysRoomy(capacity, ops[..|ops| - 1]);
      hide BusOk, Roomy, Operated;
      StaysRoomy(Ran(Fresh(capacity), ops[..|ops| - 1]), ops[|ops| - 1]);
    }
  }

  lemma StaysRoomy(s: BusState, op: BusOp)
    requires BusOk(s) && Roomy(s)
    ensures Readable(s) && Roomy(Operated(s, op))
  {
    hide InOrder;
  }

  /** And a subscriber with fewer than 256 events unread gets the next one, whatever the others do. */
  lemma RoomForTheNext(capacity: nat, ops: seq<BusOp>, draft: Event, now: nat, k: nat)
    requires var s := Ran(Fresh(capacity), ops); k in s.subs && |s.subs[k].sent| - s.subs[k].taken < 256
    ensures var s, t := Ran(Fresh(capacity), ops), Ran(Fresh(capacity), ops + [Publish(draft, now)]);
            && k in t.subs && |t.subs[k].sent| == |s.subs[k].sent| + 1 && t.subs[k].firstDrop == s.subs[k].firstDrop
            && Carries(t.subs[k].sent[|s.subs[k].sent|], draft, now, |s.history| + 1)
  {
    AlwaysRoomy(capacity, ops);
    assert (ops + [Publish(draft, now)])[..|ops|] == ops;
  }

  /** The ring holds what was published last, as much of it as it has room for. */
  lemma RetainsItsCapacity(capacity: nat, ops: seq<BusOp>)
    ensures var kept := Since(Ran(Fresh(capacity), ops), 0);
            && |kept| == Least(|Drafts(ops)|, if capacity == 0 then 1 else capacity)
            && forall i :: 0 <= i < |kept| ==>
                 var n := |Drafts(ops)| - |kept| + i; Carries(kept[i], Drafts(ops)[n].0, Drafts(ops)[n].1, n + 1)
  {
    HistoryIsPublished(capacity, ops);
  }

  /** A subscriber leaves: it is gone, and its leaving is nothing to the others. */
  lemma LeavesTheOthers(s: BusState, k: nat)
    requires BusOk(s)
    ensures var t := Operated(s, Unsubscribe(k));
            && BusOk(t) && t.history == s.history && k !in t.subs && t.nextSub == s.nextSub
            && forall j :: j in s.subs && j != k ==> j in t.subs && t.subs[j] == s.subs[j]
  {
  }

  /** And gone for good: whatever happens next, nobody is subscribed under its number again. */
  lemma {:induction false} GoneForGood(s: BusState, k: nat, more: seq<BusOp>)
    requires BusOk(s) && k !in s.subs && k < s.nextSub
    ensures k !in Ran(s, more).subs && k < Ran(s, more).nextSub
  {
    if more != [] {
      GoneForGood(s, k, more[..|more| - 1]);
      hide BusOk;
      StillGone(Ran(s, more[..|more| - 1]), k, more[|more| - 1]);
    }
  }

  lemma StillGone(s: BusState, k: nat, op: BusOp)
    requires Readable(s) && k !in s.subs && k < s.nextSub
    ensures k !in Operated(s, op).subs && k < Operated(s, op).nextSub
  {
  }

  // ---- lossless until a drop ----

  /**
   * A subscriber gets everything from where its replay began, in order and without a gap, up to its
   * first drop; whatever it gets after that is later than what was dropped, and still in order.
   */
  lemma LosslessUntilFirstDrop(capacity: nat, ops: seq<BusOp>, k: nat)
    requires k in Ran(Fresh(capacity), ops).subs
    ensures var s := Ran(Fresh(capacity), ops);
            Lossless(s.history, s.subs[k])
  {
    var s := Ran(Fresh(capacity), ops);
    LosslessSub(s.history, s.subs[k]);
  }

  predicate Lossless(history: seq<Event>, sub: Sub) {
    && (forall i, j :: 0 <= i < j < |sub.sent| ==> sub.sent[i].id < sub.sent[j].id)
    && match sub.firstDrop
       case None => sub.start <= |history| && sub.sent == history[sub.start..]
       case Some(d) =>
         && sub.start <= d < |history| && d - sub.start <= |sub.sent|
         && sub.sent[..d - sub.start] == history[sub.start..d]
         && history[d] !in sub.sent
  }

  lemma LosslessSub(history: seq<Event>, sub: Sub)
    requires Numbered(history) && SubOk(history, sub)
    ensures Lossless(history, sub)
  {
    if sub.firstDrop.Some? {
      var d := sub.firstDrop.value;
      forall j | 0 <= j < |sub.sent| ensures sub.sent[j] != history[d] {
        if j < d - sub.start { assert sub.sent[..d - sub.start][j] == history[sub.start + j]; }
      }
    }
  }

  /** The ring's content: the last capacity events published, consecutively numbered. */
  lemma RetainedIsLast(s: BusState)
    requires BusOk(s)
    ensures |Since(s, 0)| == Least(|s.history|, s.capacity)
    ensures forall i :: 0 <= i < |Since(s, 0)| ==> Since(s, 0)[i].id == Oldest(s) + i + 1
  {
  }

  /** A reconnect whose cursor the ring still covers starts at the very next event. */
  lemma ReconnectContinues(s: BusState, cursor: nat)
    requires BusOk(s) && cursor < |s.history| && Oldest(s) <= cursor
    ensures Since(s, cursor) != [] && Since(s, cursor)[0].id == cursor + 1
  {
  }

  /** One it no longer covers, or that no live process issued, starts at the oldest event retained. */
  lemma ReconnectFallsBack(s: BusState, cursor: nat)
    requires BusOk(s) && s.history != [] && (cursor > |s.history| || cursor < Oldest(s))
    ensures Since(s, cursor) != [] && Since(s, cursor)[0].id == Oldest(s) + 1
  {
  }
}
