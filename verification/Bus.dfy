/** The bus object: a ring buffer of fixed capacity and one bounded channel per subscriber. */
module Buses {
  import opened Wrappers
  import opened BusSpec

  lemma Times(n: nat, a: nat, b: nat)
    requires a >= b
    ensures n * a >= n * b
  {
  }

  lemma WrapsOnce(x: nat, n: nat)
    requires n > 0 && x < n + n
    ensures x % n == if x < n then x else x - n
  {
    var q, r := x / n, x % n;
    assert x == n * q + r && 0 <= r < n;
    if q >= 2 { Times(n, q, 2); }
    if q == 0 { assert n * q == 0; }
    if q == 1 { assert n * q == n; }
  }

  /** The i-th place from head in a ring of n. */
  function Slot(head: nat, i: nat, n: nat): (r: nat)
    requires head < n && i <= n
    ensures r == if head + i < n then head + i else head + i - n
  {
    WrapsOnce(head + i, n);
    (head + i) % n
  }

  /** The ring holds the last count events of the history, oldest at head. */
  ghost predicate Rings(ring: seq<Event>, head: nat, count: nat, history: seq<Event>) {
    && |ring| >= 1 && head < |ring| && count == Least(|history|, |ring|)
    && forall i :: 0 <= i < count ==> ring[Slot(head, i, |ring|)] == history[|history| - count + i]
  }

  lemma RingGrows(ring: seq<Event>, head: nat, count: nat, history: seq<Event>, e: Event)
    requires Rings(ring, head, count, history) && count < |ring|
    ensures Rings(ring[Slot(head, count, |ring|) := e], head, count + 1, history + [e])
  {
  }

  lemma RingTurns(ring: seq<Event>, head: nat, count: nat, history: seq<Event>, e: Event)
    requires Rings(ring, head, count, history) && count == |ring|
    ensures Rings(ring[head := e], Slot(head, 1, |ring|), count, history + [e])
  {
    var ring', head' := ring[head := e], Slot(head, 1, |ring|);
    forall i | 0 <= i < count
      ensures ring'[Slot(head', i, |ring|)] == (history + [e])[|history| + 1 - count + i]
    {
      if i + 1 < count { assert Slot(head', i, |ring|) == Slot(head, i + 1, |ring|); }
    }
  }

  /** What an offer does to the part of a channel not read yet. */
  lemma OfferQueues(sub: Sub, e: Event, index: nat)
    requires sub.taken <= |sub.sent|
    ensures var queue := sub.sent[sub.taken..];
            && Offer(sub, e, index).sent[sub.taken..] == (if |queue| < sub.room then queue + [e] else queue)
            && Offer(sub, e, index).taken == sub.taken && Offer(sub, e, index).room == sub.room
  {
    assert (sub.sent + [e])[sub.taken..] == sub.sent[sub.taken..] + [e];
  }

  /** The queues hold what each subscriber has been sent and not read. */
  ghost predicate Queued(s: BusState, queues: map<nat, seq<Event>>, rooms: map<nat, nat>) {
    && queues.Keys == rooms.Keys == s.subs.Keys
    && forall k :: k in s.subs ==>
         s.subs[k].taken <= |s.subs[k].sent| && queues[k] == s.subs[k].sent[s.subs[k].taken..] &&
           rooms[k] == s.subs[k].room
  }

  /** The queues after one offer each. */
  ghost predicate Offered(queues: map<nat, seq<Event>>, rooms: map<nat, nat>, e: Event, after: map<nat, seq<Event>>)
    requires queues.Keys == rooms.Keys
  {
    && after.Keys == queues.Keys
    && forall k :: k in queues ==> after[k] == if |queues[k]| < rooms[k] then queues[k] + [e] else queues[k]
  }

  lemma PublishQueues(s: BusState, queues: map<nat, seq<Event>>, rooms: map<nat, nat>, after: map<nat, seq<Event>>,
    draft: Event, now: nat)
    requires Queued(s, queues, rooms) && Offered(queues, rooms, Stamp(draft, |s.history| + 1, now), after)
    ensures Queued(Published(s, draft, now), after, rooms)
  {
    forall k | k in s.subs {
      OfferQueues(s.subs[k], Stamp(draft, |s.history| + 1, now), |s.history|);
    }
  }

  class Bus {
    const ring: array<Event>
    var nextId: nat
    var head: nat
    var count: nat
    var queues: map<nat, seq<Event>>
    var rooms: map<nat, nat>
    var nextSub: nat
    ghost var state: BusState

    ghost predicate Valid()
      reads this, ring
    {
      && Numbered(state.history) && state.capacity == ring.Length && |state.history| == nextId &&
        state.nextSub == nextSub
      && Rings(ring[..], head, count, state.history) && Queued(state, queues, rooms)
    }

    constructor (capacity: nat)
      ensures Valid() && fresh(ring) && state == Fresh(capacity)
    {
      var size := if capacity < 1 then 1 else capacity;
      ring := new Event[size](_ => Event(0, 0, "", ""));
      nextId, head, count, queues, rooms, nextSub := 0, 0, 0, map[], map[], 0;
      state := Fresh(capacity);
    }

    /** retain: O(1), evicting the oldest once the ring is full. */
    method Retain(e: Event)
      requires Rings(ring[..], head, count, state.history)
      modifies this`head, this`count, ring
      ensures Rings(ring[..], head, count, state.history + [e])
    {
      ghost var before := ring[..];
      if count < ring.Length {
        RingGrows(before, head, count, state.history, e);
        ring[Slot(head, count, ring.Length)] := e;
        assert ring[..] == before[Slot(head, count, ring.Length) := e];
        count := count + 1;
      } else {
        RingTurns(before, head, count, state.history, e);
        ring[head] := e;
        assert ring[..] == before[head := e];
        head := Slot(head, 1, ring.Length);
      }
    }

    method Publish(draft: Event, now: nat) returns (e: Event)
      requires Valid()
      modifies this, ring
      ensures Valid() && state == Published(old(state), draft, now)
      ensures e == state.history[|state.history| - 1]
    {
      ghost var was := state;
      ghost var before := queues;
      nextId := nextId + 1;
      e := draft.(id := nextId);
      if e.at == 0 { e := e.(at := now); }
      if e.level == "" { e := e.(level := "info"); }
      assert e == Stamp(draft, |was.history| + 1, now);
      Retain(e);
      FanOut(e);
      PublishQueues(was, before, rooms, queues, draft, now);
      state := Published(was, draft, now);
      assert state.history == was.history + [e];
    }

    /** One offer per subscriber, in whatever order the map yields them. */
    method FanOut(e: Event)
      requires queues.Keys == rooms.Keys
      modifies this`queues
      ensures Offered(old(queues), rooms, e, queues)
    {
      var left := queues.Keys;
      while left != {}
        invariant left <= queues.Keys == old(queues).Keys
        invariant forall k :: k in left ==> queues[k] == old(queues)[k]
        invariant forall k :: k in queues && k !in left ==>
                  queues[k] == if |old(queues)[k]| < rooms[k] then old(queues)[k] + [e] else old(queues)[k]
        decreases |left|
      {
        var k :| k in left;
        if |queues[k]| < rooms[k] {
          queues := queues[k := queues[k] + [e]];
        }
        left := left - {k};
      }
    }

    /** The replay: retained events after the cursor, oldest first. */
    method Replay(cursor: nat) returns (out: seq<Event>)
      requires Valid()
      ensures out == Since(state, cursor)
    {
      var since := cursor;
      if since > nextId { since := 0; }
      out := [];
      ghost var oldest := Oldest(state);
      ghost var from := ReplayFrom(state, cursor);
      for i := 0 to count
        invariant oldest + i <= |state.history|
        invariant out == if oldest + i <= from then [] else state.history[from..oldest + i]
      {
        var e := ring[Slot(head, i, ring.Length)];
        assert ring[..][Slot(head, i, ring.Length)] == state.history[oldest + i];
        assert e.id == oldest + i + 1;
        assert e.id > since <==> oldest + i >= from;
        if e.id > since {
          assert state.history[from..oldest + i + 1] == state.history[from..oldest + i] + [e];
          out := out + [e];
        }
      }
    }

    method Subscribe(cursor: nat) returns (k: nat)
      requires Valid()
      modifies this
      ensures Valid() && state == Subscribed(old(state), cursor) && k == old(nextSub)
    {
      var backlog := Replay(cursor);
      k := nextSub;
      state := Subscribed(state, cursor);
      queues := queues[k := backlog];
      rooms := rooms[k := |backlog| + SUBSCRIBER_BUFFER];
      nextSub := nextSub + 1;
      assert state.subs[k].sent[0..] == backlog;
    }

    /** Safe to call more than once. */
    method Unsubscribe(k: nat)
      requires Valid()
      modifies this
      ensures Valid() && state == Unsubscribed(old(state), k)
    {
      state := Unsubscribed(state, k);
      queues := queues - {k};
      rooms := rooms - {k};
    }

    method Receive(k: nat) returns (e: Event)
      requires Valid() && k in queues && queues[k] != []
      modifies this
      ensures Valid() && state == Received(old(state), k) && e == old(queues)[k][0]
    {
      e := queues[k][0];
      queues := queues[k := queues[k][1..]];
      state := Received(state, k);
    }
  }
}
