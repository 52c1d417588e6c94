/**
 * The browser's end of the stream, against the bus it reads from: gaps are retried a bounded number
 * of times and then counted, reconnects resume at the cursor, and a restarted server starts over.
 */
module Clients {
  import opened Wrappers
  import opened Ordering
  import opened BusSpec

  const MAX_GAP_RECONNECT_ATTEMPTS := 3

  datatype Client = Client(timeline: seq<Event>, lost: nat, lastId: nat, gapAttempts: nat, epoch: Option<string>)

  const NEW_CLIENT := Client([], 0, 0, 0, None)

  function ById(a: Event, b: Event): bool { a.id < b.id }

  predicate Ascending(s: seq<Event>) { forall i, j :: 0 <= i < j < |s| ==> s[i].id < s[j].id }

  // ---- merging ----

  predicate HasId(s: seq<Event>, id: nat) { exists i :: 0 <= i < |s| && s[i].id == id }

  function Merged(existing: seq<Event>, e: Event): seq<Event> {
    if existing != [] && e.id > existing[|existing| - 1].id then existing + [e]
    else if HasId(existing, e.id) then existing
    else Sort(ById, existing + [e])
  }

  method MergeEvents(existing: seq<Event>, e: Event) returns (out: seq<Event>)
    ensures out == Merged(existing, e)
  {
    if |existing| > 0 && e.id > existing[|existing| - 1].id { return existing + [e]; }
    for i := 0 to |existing|
      invariant forall j :: 0 <= j < i ==> existing[j].id != e.id
    {
      if existing[i].id == e.id { return existing; }
    }
    return Sort(ById, existing + [e]);
  }

  lemma {:induction false} InsertNew(s: seq<Event>, e: Event)
    requires Ascending(s) && !HasId(s, e.id)
    ensures Ascending(Insert(ById, e, s)) && |Insert(ById, e, s)| == |s| + 1
    ensures forall x :: x in Insert(ById, e, s) <==> x in s || x == e
    ensures (forall i :: 0 <= i < |s| ==> s[i].id < e.id) ==> Insert(ById, e, s) == s + [e]
  {
    if s != [] && !ById(e, s[0]) {
      assert s[0].id != e.id;
      assert s == [s[0]] + s[1..];
      assert !HasId(s[1..], e.id) by { forall i | 0 <= i < |s[1..]| ensures s[1..][i] == s[i + 1] {} }
      InsertNew(s[1..], e);
      InsertBehind(s, e, Insert(ById, e, s[1..]));
    }
  }

  /** e goes in behind the first element. */
  lemma InsertBehind(s: seq<Event>, e: Event, rest: seq<Event>)
    requires Ascending(s) && s != [] && s[0].id < e.id && Ascending(rest) && |rest| == |s|
    requires forall x :: x in rest <==> x in s[1..] || x == e
    requires (forall i :: 0 <= i < |s[1..]| ==> s[1..][i].id < e.id) ==> rest == s[1..] + [e]
    ensures Ascending([s[0]] + rest)
    ensures forall x :: x in [s[0]] + rest <==> x in s || x == e
    ensures (forall i :: 0 <= i < |s| ==> s[i].id < e.id) ==> [s[0]] + rest == s + [e]
  {
    assert s == [s[0]] + s[1..];
    forall j | 0 <= j < |rest| ensures s[0].id < rest[j].id {
      assert rest[j] in rest;
      if rest[j] in s[1..] { var k :| 0 <= k < |s[1..]| && s[1..][k] == rest[j]; assert s[k + 1] == rest[j]; }
    }
    if forall i :: 0 <= i < |s| ==> s[i].id < e.id {
      assert forall i :: 0 <= i < |s[1..]| ==> s[1..][i] == s[i + 1];
    }
  }

  lemma {:induction false} SortAscendingSame(s: seq<Event>)
    requires Ascending(s)
    ensures Sort(ById, s) == s
  {
    if s != [] {
      var n := |s| - 1;
      SortAscendingSame(s[..n]);
      assert !HasId(s[..n], s[n].id);
      InsertNew(s[..n], s[n]);
      calc {
        Sort(ById, s);
        Insert(ById, s[n], s[..n]);
        s[..n] + [s[n]];
        s;
      }
    }
  }

  /** Merging keeps the timeline strictly ordered, loses nothing, and takes the event exactly if its ID is new. */
  lemma MergeKeepsOrder(existing: seq<Event>, e: Event)
    requires Ascending(existing)
    ensures Ascending(Merged(existing, e))
    ensures forall x :: x in Merged(existing, e) <==> x in existing || (x == e && !HasId(existing, e.id))
    ensures |Merged(existing, e)| == |existing| + if HasId(existing, e.id) then 0 else 1
  {
    if !HasId(existing, e.id) {
      SortAscendingSame(existing);
      InsertNew(existing, e);
      assert (existing + [e])[..|existing|] == existing;
    }
  }

  // ---- the handlers ----

  function DetectGap(lastId: nat, id: nat): bool { lastId > 0 && id > lastId + 1 }

  /** A message either is refused for a reconnect, or is taken with what it skipped counted. */
  predicate Refuses(c: Client, e: Event) { DetectGap(c.lastId, e.id) && c.gapAttempts < MAX_GAP_RECONNECT_ATTEMPTS }

  function OnMessage(c: Client, e: Event): Client {
    if Refuses(c, e) then c.(gapAttempts := c.gapAttempts + 1)
    else
      c.(lost := if DetectGap(c.lastId, e.id) then c.lost + (e.id - c.lastId - 1) else c.lost,
         gapAttempts := 0,
         lastId := if e.id > c.lastId then e.id else c.lastId,
         timeline := Merged(c.timeline, e))
  }

  /** A changed epoch clears what the old process told us; the first one only names it. */
  function OnEpoch(c: Client, serverEpoch: string): Client {
    if c.epoch == None then c.(epoch := Some(serverEpoch))
    else if c.epoch == Some(serverEpoch) then c
    else Client([], 0, 0, 0, Some(serverEpoch))
  }

  // ---- client and server together ----

  /** link is the subscription behind the current source, if it is open; epochs are those already used. */
  datatype Stream = Stream(bus: BusState, serverEpoch: string, epochs: set<string>, client: Client, link: Option<nat>)

  datatype Move =
    | ServerDoes(op: BusOp)
    | Connects
    | Delivers
    | Disconnects
    | Restarts(epoch: string)

  /**
   * Connecting subscribes from the client's cursor and gets the epoch frame before anything else; on
   * a changed epoch the client clears itself and connects again from zero.
   */
  function Connected(s: Stream): Stream
    requires BusOk(s.bus)
  {
    var c := OnEpoch(s.client, s.serverEpoch);
    var first := Subscribed(s.bus, s.client.lastId);
    var bus := if c.lastId == s.client.lastId then first else Subscribed(first, c.lastId);
    s.(bus := bus, client := c, link := Some(bus.nextSub - 1))
  }

  /** The open source has an event waiting. */
  predicate Deliverable(s: Stream) {
    && s.link.Some? && s.link.value in s.bus.subs
    && s.bus.subs[s.link.value].taken < |s.bus.subs[s.link.value].sent|
  }

  function Waiting(s: Stream): Event
    requires Deliverable(s)
  {
    var sub := s.bus.subs[s.link.value];
    sub.sent[sub.taken]
  }

  /** A refused message closes its source. */
  function Delivered(s: Stream): Stream
    requires Deliverable(s)
  {
    s.(bus := Received(s.bus, s.link.value), client := OnMessage(s.client, Waiting(s)),
       link := if Refuses(s.client, Waiting(s)) then None else s.link)
  }

  function Moved(s: Stream, m: Move): Stream
    requires BusOk(s.bus)
  {
    match m
    case ServerDoes(op) =>
      if s.link.Some? && (op.Receive? || op.Unsubscribe?) && op.k == s.link.value then s
      else s.(bus := Operated(s.bus, op))
    case Connects => if s.link.Some? then s else Connected(s)
    case Delivers => if Deliverable(s) then Delivered(s) else s
    case Disconnects => s.(link := None)
    case Restarts(epoch) =>
      if epoch in s.epochs then s
      else s.(bus := Fresh(s.bus.capacity), serverEpoch := epoch, epochs := s.epochs + {epoch}, link := None)
  }

  // ---- what every run keeps ----

  /** Timeline length and what was lost account for every ID from the first to the last. */
  predicate Counted(c: Client) {
    && Ascending(c.timeline) && c.gapAttempts <= MAX_GAP_RECONNECT_ATTEMPTS
    && if c.timeline == [] then c.lastId == 0 && c.lost == 0
       else 1 <= c.lastId == c.timeline[|c.timeline| - 1].id && |c.timeline| + c.lost == c.lastId - c.timeline[0].id + 1
  }

  /** Everything on the timeline is what the server of this epoch published. */
  predicate Genuine(bus: BusState, c: Client) {
    && c.lastId <= |bus.history|
    && forall i :: 0 <= i < |c.timeline| ==>
        1 <= c.timeline[i].id <= |bus.history| && bus.history[c.timeline[i].id - 1] == c.timeline[i]
  }

  /** What an open source has still to deliver is all past the cursor. */
  predicate Ahead(sub: Sub, lastId: nat) { forall j :: sub.taken <= j < |sub.sent| ==> sub.sent[j].id > lastId }

  predicate StreamOk(s: Stream) {
    && BusOk(s.bus) && Counted(s.client)
    && s.serverEpoch in s.epochs && (s.client.epoch.Some? ==> s.client.epoch.value in s.epochs)
    && (s.client.epoch.None? ==> s.client.lastId == 0)
    && (s.client.epoch == Some(s.serverEpoch) ==> Genuine(s.bus, s.client))
    && (s.link.Some? ==>
          && s.client.epoch == Some(s.serverEpoch) && s.link.value in s.bus.subs
          && Ahead(s.bus.subs[s.link.value], s.client.lastId))
  }

  lemma SubscribeAhead(bus: BusState, cursor: nat)
    requires BusOk(bus) && cursor <= |bus.history|
    ensures BusOk(Subscribed(bus, cursor)) && Subscribed(bus, cursor).history == bus.history
    ensures Subscribed(bus, cursor).nextSub == bus.nextSub + 1
    ensures bus.nextSub in Subscribed(bus, cursor).subs && Ahead(Subscribed(bus, cursor).subs[bus.nextSub], cursor)
  {
    SubscribeKeeps(bus, cursor);
  }

  /** Genuine looks at the history alone. */
  lemma GenuineSame(a: BusState, b: BusState, c: Client)
    requires Genuine(a, c) && b.history == a.history
    ensures Genuine(b, c)
  {
  }

  lemma ConnectSame(s: Stream)
    requires StreamOk(s) && s.link.None? && OnEpoch(s.client, s.serverEpoch).lastId == s.client.lastId
    ensures StreamOk(Connected(s))
  {
    hide BusOk, Subscribed, Genuine, Counted, Ahead;
    var c := OnEpoch(s.client, s.serverEpoch);
    FirstFrame(s);
    SubscribeAhead(s.bus, s.client.lastId);
    GenuineSame(s.bus, Subscribed(s.bus, s.client.lastId), c);
  }

  lemma ConnectAfresh(s: Stream)
    requires StreamOk(s) && s.link.None? && OnEpoch(s.client, s.serverEpoch).lastId != s.client.lastId
    ensures StreamOk(Connected(s))
  {
    hide BusOk, Subscribed, Genuine, Counted, Ahead;
    var c := OnEpoch(s.client, s.serverEpoch);
    var first := Subscribed(s.bus, s.client.lastId);
    SubscribeKeeps(s.bus, s.client.lastId);
    SubscribeAhead(first, c.lastId);
    FirstFrame(s);
    GenuineSame(s.bus, Subscribed(first, c.lastId), c);
  }

  /** After the first frame of a connection the client knows the server it talks to. */
  lemma FirstFrame(s: Stream)
    requires StreamOk(s)
    ensures var c := OnEpoch(s.client, s.serverEpoch);
            Counted(c) && Genuine(s.bus, c) && c.epoch == Some(s.serverEpoch) && c.lastId <= |s.bus.history|
  {
  }

  lemma ConnectKeeps(s: Stream)
    requires StreamOk(s) && s.link.None?
    ensures StreamOk(Connected(s))
  {
    if OnEpoch(s.client, s.serverEpoch).lastId == s.client.lastId { ConnectSame(s); } else { ConnectAfresh(s); }
  }

  /** A message past the cursor is refused, or extends the timeline and keeps the count. */
  lemma MessageCounts(c: Client, e: Event)
    requires Counted(c) && e.id > c.lastId
    ensures Counted(OnMessage(c, e))
    ensures !Refuses(c, e) ==> OnMessage(c, e).timeline == c.timeline + [e] && OnMessage(c, e).lastId == e.id
  {
    if !Refuses(c, e) && c.timeline == [] {
      assert [] + [e] == [e];
      assert Sort(ById, [e]) == [e];
    }
  }

  /** The next event of an open source is the server's, past the cursor, and before all it still has to deliver. */
  lemma NextIsNew(history: seq<Event>, sub: Sub, c: Client)
    requires SubOk(history, sub) && sub.taken < |sub.sent| && Ahead(sub, c.lastId)
    ensures var e := sub.sent[sub.taken];
            && c.lastId < e.id <= |history| && history[e.id - 1] == e
            && Ahead(sub.(taken := sub.taken + 1), e.id) && Ahead(sub.(taken := sub.taken + 1), c.lastId)
  {
  }

  /** Reading one event on keeps the bus, and everything genuine on it. */
  lemma ReadKeeps(bus: BusState, k: nat, c: Client)
    requires BusOk(bus) && k in bus.subs && bus.subs[k].taken < |bus.subs[k].sent| && Genuine(bus, c)
    ensures BusOk(Received(bus, k)) && Received(bus, k).history == bus.history && Genuine(Received(bus, k), c)
    ensures Received(bus, k).subs[k] == bus.subs[k].(taken := bus.subs[k].taken + 1)
  {
    OperateKeeps(bus, Receive(k));
  }

  lemma TakenIsGenuine(bus: BusState, c: Client, e: Event)
    requires Genuine(bus, c) && Counted(c) && c.lastId < e.id <= |bus.history| && bus.history[e.id - 1] == e
    ensures Genuine(bus, OnMessage(c, e))
  {
    MessageCounts(c, e);
  }

  lemma SubscriberOk(bus: BusState, k: nat)
    requires BusOk(bus) && k in bus.subs
    ensures SubOk(bus.history, bus.subs[k])
  {
  }

  lemma DeliverKeeps(s: Stream)
    requires StreamOk(s) && Deliverable(s)
    ensures StreamOk(Delivered(s))
  {
    hide BusOk, SubOk, Genuine, Counted;
    var k, e := s.link.value, Waiting(s);
    SubscriberOk(s.bus, k);
    NextIsNew(s.bus.history, s.bus.subs[k], s.client);
    ReadKeeps(s.bus, k, s.client);
    MessageCounts(s.client, e);
    TakenIsGenuine(Received(s.bus, k), s.client, e);
    DeliveredOk(s, Delivered(s), e);
  }

  lemma DeliveredOk(s: Stream, t: Stream, e: Event)
    requires StreamOk(s) && s.link.Some? && t.client == OnMessage(s.client, e) && e.id > s.client.lastId
    requires t == s.(bus := t.bus, client := t.client, link := t.link) && BusOk(t.bus) && Counted(t.client)
    requires Genuine(t.bus, t.client) &&
             (t.link.Some? ==> t.link.value in t.bus.subs && Ahead(t.bus.subs[t.link.value], t.client.lastId))
    ensures StreamOk(t)
  {
  }

  lemma OfferKeepsAhead(sub: Sub, e: Event, index: nat, lastId: nat)
    requires sub.taken <= |sub.sent| && Ahead(sub, lastId) && e.id > lastId
    ensures Ahead(Offer(sub, e, index), lastId)
  {
  }

  /** What the server does to others never rewrites history, and only ever adds to an open source. */
  lemma ServerExtends(bus: BusState, op: BusOp, c: Client)
    requires BusOk(bus)
    ensures BusOk(Operated(bus, op)) && Operated(bus, op).capacity == bus.capacity
    ensures Genuine(bus, c) ==> Genuine(Operated(bus, op), c)
  {
    OperateKeeps(bus, op);
    assert op.Publish? ==> Operated(bus, op).history == bus.history + [Stamp(op.draft, |bus.history| + 1, op.now)];
    assert !op.Publish? ==> Operated(bus, op).history == bus.history;
  }

  lemma ServerStaysAhead(bus: BusState, op: BusOp, k: nat, c: Client)
    requires BusOk(bus) && k in bus.subs && Ahead(bus.subs[k], c.lastId) && c.lastId <= |bus.history|
    requires !((op.Receive? || op.Unsubscribe?) && op.k == k)
    ensures k in Operated(bus, op).subs && Ahead(Operated(bus, op).subs[k], c.lastId)
  {
    if op.Publish? {
      OfferKeepsAhead(bus.subs[k], Stamp(op.draft, |bus.history| + 1, op.now), |bus.history|, c.lastId);
    }
  }

  lemma ServerKeeps(s: Stream, op: BusOp)
    requires StreamOk(s)
    ensures StreamOk(Moved(s, ServerDoes(op)))
  {
    ServerExtends(s.bus, op, s.client);
    if s.link.Some? && !((op.Receive? || op.Unsubscribe?) && op.k == s.link.value) {
      ServerStaysAhead(s.bus, op, s.link.value, s.client);
    }
  }

  lemma MoveKeeps(s: Stream, m: Move)
    requires StreamOk(s)
    ensures StreamOk(Moved(s, m))
  {
    match m
    case ServerDoes(op) => ServerKeeps(s, op);
    case Connects => if s.link.None? { ConnectKeeps(s); }
    case Delivers => if Deliverable(s) { DeliverKeeps(s); }
    case _ =>
  }

  function Opened(capacity: nat, epoch: string): Stream { Stream(Fresh(capacity), epoch, {epoch}, NEW_CLIENT, None) }

  function Ran(s: Stream, moves: seq<Move>): (t: Stream)
    requires StreamOk(s)
    ensures StreamOk(t)
  {
    if moves == [] then s
    else
      MoveKeeps(Ran(s, moves[..|moves| - 1]), moves[|moves| - 1]);
      Moved(Ran(s, moves[..|moves| - 1]), moves[|moves| - 1])
  }

  /**
   * Over any run of publishing, slow reading, gaps, reconnects and server restarts, the timeline is
   * strictly sorted, holds only what the server of its epoch published, and together with
   * eventsLost accounts for every ID from the first to the last.
   */
  lemma LosslessOrCounted(capacity: nat, epoch: string, moves: seq<Move>)
    ensures var s := Ran(Opened(capacity, epoch), moves);
            && Ascending(s.client.timeline)
            && (s.client.timeline != [] ==>
                  |s.client.timeline| + s.client.lost == s.client.lastId - s.client.timeline[0].id + 1)
            && (s.client.epoch == Some(s.serverEpoch) ==>
                  forall i :: 0 <= i < |s.client.timeline| ==> s.client.timeline[i] in s.bus.history)
  {
  }

  /**
   * With the same server, a reconnect whose cursor the ring still covers resumes at the very next
   * event, so its first delivery is never taken for a gap.
   */
  lemma CoveredReconnectHasNoGap(s: Stream)
    requires StreamOk(s) && s.link.None? && s.client.epoch == Some(s.serverEpoch)
    requires Oldest(s.bus) <= s.client.lastId < |s.bus.history|
    ensures var t := Connected(s);
            && t.client == s.client && t.link.Some? && t.link.value in t.bus.subs
            && var sub := t.bus.subs[t.link.value];
            sub.taken < |sub.sent| && sub.sent[sub.taken].id == s.client.lastId + 1 &&
              !DetectGap(s.client.lastId, sub.sent[sub.taken].id)
  {
    ReconnectContinues(s.bus, s.client.lastId);
  }

  /** A gap is retried at most three times in a row; the fourth delivery is taken and its hole counted. */
  lemma {:induction false} GapsAreBounded(c: Client, e: Event)
    requires Counted(c) && DetectGap(c.lastId, e.id)
    ensures Refuses(c, e) <==> c.gapAttempts < 3
    ensures c.gapAttempts == 3 ==>
            OnMessage(c, e).lost == c.lost + (e.id - c.lastId - 1) && OnMessage(c, e).gapAttempts == 0
  {
  }

  /** One gap met again and again: three times the source is closed for it, the fourth time it is counted. */
  lemma FourthTimeIsCounted(c: Client, e: Event)
    requires Counted(c) && DetectGap(c.lastId, e.id) && c.gapAttempts == 0
    ensures var c1 := OnMessage(c, e);
            var c2 := OnMessage(c1, e);
            var c3 := OnMessage(c2, e);
            var c4 := OnMessage(c3, e);
            && Refuses(c, e) && Refuses(c1, e) && Refuses(c2, e) && !Refuses(c3, e)
            && c3.timeline == c.timeline && c3.lost == c.lost && c3.lastId == c.lastId
            && c4.timeline == c.timeline + [e] && c4.lost == c.lost + (e.id - c.lastId - 1) && c4.lastId == e.id
            && c4.gapAttempts == 0
  {
    MessageCounts(c.(gapAttempts := 3), e);
  }

  /** A message seen before changes nothing but to end the attempts at a gap. */
  lemma SeenBeforeIsNothing(c: Client, e: Event)
    requires Counted(c) && e.id <= c.lastId && HasId(c.timeline, e.id)
    ensures OnMessage(c, e) == c.(gapAttempts := 0)
  {
  }

  /** Another server's first frame clears all that was known; the first server's, and the same one's again, nothing. */
  lemma NewServerStartsOver(c: Client, epoch: string)
    ensures OnEpoch(c, epoch).epoch == Some(epoch)
    ensures c.epoch.Some? && c.epoch.value != epoch ==>
              var d := OnEpoch(c, epoch); d.timeline == [] && d.lost == 0 && d.lastId == 0 && d.gapAttempts == 0
    ensures c.epoch.None? || c.epoch.value == epoch ==>
              var d := OnEpoch(c, epoch);
              d.timeline == c.timeline && d.lost == c.lost && d.lastId == c.lastId && d.gapAttempts == c.gapAttempts
  {
  }

  /**
   * A refused gap is refilled: its source is closed, and a reconnect the ring still covers begins with the
   * very event that was missing.
   */
  lemma GapIsRefilled(s: Stream)
    requires StreamOk(s) && Deliverable(s) && Refuses(s.client, Waiting(s)) && s.client.epoch == Some(s.serverEpoch)
    requires Oldest(s.bus) <= s.client.lastId < |s.bus.history|
    ensures var t := Moved(s, Delivers);
            && StreamOk(t) && t.link == None && t.client == s.client.(gapAttempts := s.client.gapAttempts + 1)
            && var u := Moved(t, Connects);
               && Deliverable(u) && Waiting(u).id == s.client.lastId + 1 && !Refuses(u.client, Waiting(u))
               && u.client == t.client
  {
    MoveKeeps(s, Delivers);
    var t := Moved(s, Delivers);
    ReadKeeps(s.bus, s.link.value, s.client);
    CoveredReconnectHasNoGap(t);
  }

  // ---- the hook's own state ----

  class EventStream {
    var timeline: seq<Event>
    var eventsLost: nat
    var lastId: nat
    var gapAttempts: nat
    var epoch: Option<string>

    function Abs(): Client
      reads this
    {
      Client(timeline, eventsLost, lastId, gapAttempts, epoch)
    }

    constructor ()
      ensures Abs() == NEW_CLIENT
    {
      timeline, eventsLost, lastId, gapAttempts, epoch := [], 0, 0, 0, None;
    }

    /** The onmessage handler; reopen says the source was closed to fill a gap. */
    method HandleMessage(e: Event) returns (reopen: bool)
      modifies this
      ensures Abs() == OnMessage(old(Abs()), e) && reopen == Refuses(old(Abs()), e)
    {
      if DetectGap(lastId, e.id) && gapAttempts < MAX_GAP_RECONNECT_ATTEMPTS {
        gapAttempts := gapAttempts + 1;
        return true;
      }
      if DetectGap(lastId, e.id) {
        eventsLost := eventsLost + (e.id - lastId - 1);
      }
      gapAttempts := 0;
      if e.id > lastId { lastId := e.id; }
      timeline := MergeEvents(timeline, e);
      return false;
    }

    /** The epoch frame's handler; reopen says everything was cleared for a new server process. */
    method HandleEpoch(serverEpoch: string) returns (reopen: bool)
      modifies this
      ensures Abs() == OnEpoch(old(Abs()), serverEpoch)
      ensures reopen <==> old(epoch) != None && old(epoch) != Some(serverEpoch)
    {
      if epoch == None {
        epoch := Some(serverEpoch);
        return false;
      }
      if epoch == Some(serverEpoch) { return false; }
      epoch := Some(serverEpoch);
      lastId, gapAttempts, timeline, eventsLost := 0, 0, [], 0;
      return true;
    }
  }
}
