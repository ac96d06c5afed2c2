/** The browser-side analytics recorder of public/js/analytics.js.  Every
    tracked event is appended to an in-memory list, posted to the analytics
    endpoint with the session id merged into its data, and kept in a local
    storage backup capped at the 100 most recent events.  A scroll listener
    keeps a high-water mark of the scroll depth and reports each new quarter.

    The clock, the user agent, the screen size and the session id (made from
    the clock and a random number) are inputs; the floating-point scroll
    computation is reduced to its floored percentage. */
module ClientAnalytics {
  import opened Base

  /** What the browser reports at the moment of tracking. */
  datatype Env = Env(timestamp: string, userAgent: string, screenWidth: nat, screenHeight: nat)

  /** One entry of `this.events` and of the stored backup. */
  datatype Event = Event(
    eventType: string,
    data: Json,
    timestamp: string,
    sessionId: string,
    userAgent: string,
    screenResolution: string)

  /** The `analytics_events` entry of local storage: missing, holding text
      that does not parse to a list, or a list of events. */
  datatype Slot = Absent | Unreadable | Stored(events: seq<Event>)

  /** The JSON body posted to the analytics endpoint. */
  datatype Payload = Payload(user_id: Option<int>, event_type: string, event_data: map<string, Json>)

  /** The number of events the storage backup keeps. */
  const StoreCap: nat := 100

  /** Scroll depths are reported at multiples of this many percent. */
  const ScrollQuantum: nat := 25

  /** `eventData = {}`: a default parameter replaces `undefined` only, so an
      explicit `null` is recorded as `null`. */
  function EventData(x: Input<Json>): (d: Json)
    ensures x.Undefined? ==> d == JObj(map[])
    ensures x.Null? ==> d == JNull
    ensures x.Given? ==> d == x.value
  {
    match x
    case Undefined => JObj(map[])
    case Null => JNull
    case Given(j) => j
  }

  /** The event object `track` builds: type, data, the moment, the session,
      the browser, and the screen as `<width>x<height>`. */
  function MakeEvent(eventType: string, data: Json, sessionId: string, env: Env): (e: Event)
    ensures e.eventType == eventType && e.data == data && e.sessionId == sessionId
    ensures e.timestamp == env.timestamp && e.userAgent == env.userAgent
    ensures var w := Decimal(env.screenWidth);
      && |e.screenResolution| == |w| + 1 + |Decimal(env.screenHeight)|
      && e.screenResolution[..|w|] == w && e.screenResolution[|w|] == 'x'
      && e.screenResolution[|w| + 1..] == Decimal(env.screenHeight)
  {
    Event(eventType, data, env.timestamp, sessionId, env.userAgent,
          Decimal(env.screenWidth) + "x" + Decimal(env.screenHeight))
  }

  /** The screen string tells the screen size exactly: two environments
      whose events carry the same resolution have the same width and
      height. */
  lemma ScreenResolutionExact(eventType: string, data: Json, sessionId: string, a: Env, b: Env)
    requires MakeEvent(eventType, data, sessionId, a).screenResolution == MakeEvent(eventType, data, sessionId, b).screenResolution
    ensures a.screenWidth == b.screenWidth && a.screenHeight == b.screenHeight
  {
    var s := MakeEvent(eventType, data, sessionId, a).screenResolution;
    var wa, wb := Decimal(a.screenWidth), Decimal(b.screenWidth);
    // the first `x` ends the width on both sides
    assert |wa| == |wb|;
    assert wa == s[..|wa|] == wb;
    assert Decimal(a.screenHeight) == s[|wa| + 1..] == Decimal(b.screenHeight);
    DecimalRoundTrip(a.screenWidth);
    DecimalRoundTrip(b.screenWidth);
    DecimalRoundTrip(a.screenHeight);
    DecimalRoundTrip(b.screenHeight);
  }

  /** The own keys an object spread copies; anything but an object is taken
      to contribute none. */
  function Spread(data: Json): map<string, Json> {
    if data.JObj? then data.fields else map[]
  }

  /** The body sendToBackend posts: the page's user id (`|| null`, so 0 is
      sent as null), the event type, and the caller's data with `session_id`
      set to the instance's session, overriding a caller key of that name. */
  function BackendPayload(currentUserId: Input<int>, eventType: string, data: Json, sessionId: string)
    : (p: Payload)
    ensures p.user_id == NumberOrNull(currentUserId) && p.event_type == eventType
    ensures p.event_data.Keys == Spread(data).Keys + {"session_id"}
    ensures p.event_data["session_id"] == JStr(sessionId)
    ensures forall k :: k in Spread(data) && k != "session_id" ==> p.event_data[k] == Spread(data)[k]
  {
    Payload(NumberOrNull(currentUserId), eventType, Spread(data)["session_id" := JStr(sessionId)])
  }

  // ---------------------------------------------------------------------
  // The storage backup

  /** `stored.push(event)`, then one `stored.shift()` when the list has grown
      past the cap. */
  function Pushed(s: seq<Event>, e: Event): (r: seq<Event>)
    ensures |r| > 0 && r[|r| - 1] == e
    ensures r[..|r| - 1] == if |s| >= StoreCap then s[1..] else s
    ensures |s| <= StoreCap ==> |r| <= StoreCap
  {
    var t := s + [e];
    if |t| > StoreCap then t[1..] else t
  }

  /** The slot after storeLocally: a slot that cannot be read as a list is
      left as it was (the parse or the push throws and the error is caught). */
  function StoreSlot(slot: Slot, e: Event): Slot {
    match slot
    case Absent => Stored(Pushed([], e))
    case Unreadable => Unreadable
    case Stored(s) => Stored(Pushed(s, e))
  }

  /** getStoredEvents: the stored list, or the empty list when the entry is
      missing or unreadable. */
  function StoredEvents(slot: Slot): (r: seq<Event>)
    ensures slot.Stored? ==> r == slot.events
    ensures !slot.Stored? ==> r == []
  {
    if slot.Stored? then slot.events else []
  }

  /** The last `n` elements of `x`, or all of `x` when it is shorter. */
  function Latest(x: seq<Event>, n: nat): (r: seq<Event>) {
    if |x| <= n then x else x[|x| - n..]
  }

  /** The backup after storing each of `es` in turn. */
  function PushAll(s: seq<Event>, es: seq<Event>): seq<Event>
    decreases |es|
  {
    if es == [] then s else PushAll(Pushed(s, es[0]), es[1..])
  }

  lemma LatestOfLatest(x: seq<Event>, y: seq<Event>, n: nat)
    ensures Latest(Latest(x, n) + y, n) == Latest(x + y, n)
  {
    if |x| > n {
      var l := x[|x| - n..];
      var a, b := Latest(l + y, n), Latest(x + y, n);
      assert |a| == n && |b| == n;
      forall k | 0 <= k < n ensures a[k] == b[k] {
        if y == [] {
          assert a[k] == l[k];
        } else if |y| + k < n {
          assert a[k] == (l + y)[|y| + k] == l[|y| + k];
        } else {
          assert a[k] == (l + y)[|y| + k] == y[|y| + k - n];
        }
      }
    }
  }

  lemma PushedIsLatest(s: seq<Event>, e: Event)
    requires |s| <= StoreCap
    ensures Pushed(s, e) == Latest(s + [e], StoreCap)
  {
  }

  /** Starting from a backup within the cap, the backup is always exactly the
      100 most recent events in the order they were tracked. */
  lemma {:induction false} BackupKeepsLatest(s: seq<Event>, es: seq<Event>)
    requires |s| <= StoreCap
    ensures PushAll(s, es) == Latest(s + es, StoreCap)
    decreases |es|
  {
    if es != [] {
      var p := Pushed(s, es[0]);
      PushedIsLatest(s, es[0]);
      BackupKeepsLatest(p, es[1..]);
      LatestOfLatest(s + [es[0]], es[1..], StoreCap);
      assert s + [es[0]] + es[1..] == s + es;
    }
  }

  // ---------------------------------------------------------------------
  // Scroll depth

  /** The high-water mark after a scroll to `p` percent. */
  function ScrollMark(mark: nat, p: int): (m: nat)
    ensures m >= mark && m >= p
    ensures m == mark || m == p
  {
    if p > mark then p else mark
  }

  /** A scroll to `p` percent reports a depth: it raises the mark to a
      multiple of 25.  (`p > mark >= 0`, so JavaScript's `%` and Dafny's agree.) */
  predicate Fires(mark: nat, p: int) {
    p > mark && p % ScrollQuantum == 0
  }

  /** The depths reported over a run of scroll readings. */
  function Milestones(mark: nat, ps: seq<int>): seq<int>
    decreases |ps|
  {
    if ps == [] then []
    else (if Fires(mark, ps[0]) then [ps[0]] else []) + Milestones(ScrollMark(mark, ps[0]), ps[1..])
  }

  /** The mark after a run of scroll readings. */
  function FinalMark(mark: nat, ps: seq<int>): nat
    decreases |ps|
  {
    if ps == [] then mark else FinalMark(ScrollMark(mark, ps[0]), ps[1..])
  }

  /** Over any run of readings the mark ends at or above its start and every
      reading. */
  lemma {:induction false} FinalMarkBounds(mark: nat, ps: seq<int>)
    ensures FinalMark(mark, ps) >= mark
    ensures forall i :: 0 <= i < |ps| ==> FinalMark(mark, ps) >= ps[i]
    decreases |ps|
  {
    if ps != [] {
      var next := ScrollMark(mark, ps[0]);
      FinalMarkBounds(next, ps[1..]);
      forall i | 1 <= i < |ps| ensures FinalMark(mark, ps) >= ps[i] {
        assert ps[i] == ps[1..][i - 1];
      }
    }
  }

  /** The reported depths are readings above the starting mark, multiples
      of 25, and no deeper than the final mark. */
  lemma {:induction false} MilestonesBounded(mark: nat, ps: seq<int>)
    ensures forall x :: x in Milestones(mark, ps) ==>
      mark < x <= FinalMark(mark, ps) && x % ScrollQuantum == 0 && x in ps
    decreases |ps|
  {
    if ps != [] {
      var next := ScrollMark(mark, ps[0]);
      MilestonesBounded(next, ps[1..]);
      FinalMarkBounds(next, ps[1..]);
      assert forall x :: x in ps[1..] ==> x in ps;
      var rest := Milestones(next, ps[1..]);
      assert Milestones(mark, ps) == (if Fires(mark, ps[0]) then [ps[0]] else []) + rest;
    }
  }

  /** The reported depths strictly increase, so no depth is reported twice. */
  lemma {:induction false} MilestonesIncrease(mark: nat, ps: seq<int>)
    ensures forall i, j :: 0 <= i < j < |Milestones(mark, ps)| ==> Milestones(mark, ps)[i] < Milestones(mark, ps)[j]
    decreases |ps|
  {
    if ps != [] {
      var next := ScrollMark(mark, ps[0]);
      MilestonesIncrease(next, ps[1..]);
      var rest := Milestones(next, ps[1..]);
      if Fires(mark, ps[0]) {
        MilestonesBounded(next, ps[1..]);
        var m := [ps[0]] + rest;
        assert Milestones(mark, ps) == m;
        forall i, j | 0 <= i < j < |m| ensures m[i] < m[j] {
          assert m[j] == rest[j - 1] && m[j] in rest && ps[0] == next;
          if i > 0 {
            assert m[i] == rest[i - 1];
          }
        }
      } else {
        assert Milestones(mark, ps) == rest;
      }
    }
  }

  // ---------------------------------------------------------------------
  // The recorder

  class Analytics {
    var events: seq<Event>
    const sessionId: string
    /** The scroll listener's `maxScroll`, kept between scroll events. */
    var maxScroll: nat
    var storage: Slot
    /** The bodies posted to the analytics endpoint, oldest first; a failed
        post is caught and logged, so every body is attempted. */
    var outbox: seq<Payload>

    /** `new Analytics()`: start a session and record the page view. */
    constructor (sessionId: string, storage: Slot, env: Env, url: string, title: string, referrer: string,
                 currentUserId: Input<int>)
      ensures this.sessionId == sessionId && maxScroll == 0
      ensures events == [MakeEvent("page_view", PageView(url, title, referrer), sessionId, env)]
      ensures outbox == [BackendPayload(currentUserId, "page_view", PageView(url, title, referrer), sessionId)]
      ensures this.storage == StoreSlot(storage, events[0])
    {
      this.sessionId := sessionId;
      events, outbox, maxScroll := [], [], 0;
      this.storage := storage;
      new;
      Track("page_view", Given(PageView(url, title, referrer)), env, currentUserId);
    }

    /** track: append the event to the list, post it, and back it up. */
    method Track(eventType: string, eventData: Input<Json>, env: Env, currentUserId: Input<int>)
      modifies this`events, this`outbox, this`storage
      ensures var e := MakeEvent(eventType, EventData(eventData), sessionId, env);
        && events == old(events) + [e]
        && e.eventType == eventType && e.data == EventData(eventData) && e.sessionId == sessionId
        && outbox == old(outbox) + [BackendPayload(currentUserId, eventType, EventData(eventData), sessionId)]
        && storage == StoreSlot(old(storage), e)
    {
      var e := MakeEvent(eventType, EventData(eventData), sessionId, env);
      events := events + [e];
      outbox := outbox + [BackendPayload(currentUserId, eventType, EventData(eventData), sessionId)];
      StoreLocally(e);
    }

    /** storeLocally: read the backup, push, drop the oldest when over the
        cap, write it back. */
    method StoreLocally(e: Event)
      modifies this`storage
      ensures storage == StoreSlot(old(storage), e)
      ensures old(storage).Stored? && |old(storage).events| <= StoreCap ==> |StoredEvents(storage)| <= StoreCap
    {
      if storage.Unreadable? {
        return;
      }
      var stored := if storage.Stored? then storage.events else [];
      stored := stored + [e];
      if |stored| > StoreCap {
        stored := stored[1..];
      }
      storage := Stored(stored);
    }

    method GetEvents() returns (r: seq<Event>)
      ensures r == events
    {
      r := events;
    }

    method GetStoredEvents() returns (r: seq<Event>)
      ensures r == StoredEvents(storage)
    {
      r := if storage.Stored? then storage.events else [];
    }

    /** clearStoredEvents: remove the entry, so nothing is stored any more. */
    method ClearStoredEvents()
      modifies this`storage
      ensures storage == Absent && StoredEvents(storage) == []
    {
      storage := Absent;
    }

    /** The scroll listener, given the floored scroll percentage: raise the
        mark, and report it when it rose to a multiple of 25. */
    method OnScroll(percentage: int, env: Env, currentUserId: Input<int>)
      modifies this`maxScroll, this`events, this`outbox, this`storage
      ensures maxScroll == ScrollMark(old(maxScroll), percentage)
      ensures Fires(old(maxScroll), percentage) ==>
        && events == old(events) + [MakeEvent("scroll_depth", ScrollData(percentage), sessionId, env)]
        && outbox == old(outbox) + [BackendPayload(currentUserId, "scroll_depth", ScrollData(percentage), sessionId)]
        && storage == StoreSlot(old(storage), MakeEvent("scroll_depth", ScrollData(percentage), sessionId, env))
      ensures !Fires(old(maxScroll), percentage) ==>
        events == old(events) && outbox == old(outbox) && storage == old(storage)
    {
      if percentage > maxScroll {
        maxScroll := percentage;
        if maxScroll % ScrollQuantum == 0 {
          Track("scroll_depth", Given(ScrollData(maxScroll)), env, currentUserId);
        }
      }
    }

    /** The `beforeunload` listener, given the milliseconds since the page
        was set up: record the whole seconds spent. */
    method OnUnload(elapsedMs: nat, env: Env, currentUserId: Input<int>)
      modifies this`events, this`outbox, this`storage
      ensures events == old(events) + [MakeEvent("session_end", SessionEndData(elapsedMs / 1000), sessionId, env)]
      ensures outbox == old(outbox) + [BackendPayload(currentUserId, "session_end", SessionEndData(elapsedMs / 1000), sessionId)]
      ensures storage == StoreSlot(old(storage), MakeEvent("session_end", SessionEndData(elapsedMs / 1000), sessionId, env))
    {
      Track("session_end", Given(SessionEndData(elapsedMs / 1000)), env, currentUserId);
    }
  }

  function PageView(url: string, title: string, referrer: string): Json {
    JObj(map["url" := JStr(url), "title" := JStr(title), "referrer" := JStr(referrer)])
  }

  function ScrollData(percentage: int): Json {
    JObj(map["percentage" := JNum(percentage)])
  }

  function SessionEndData(seconds: nat): Json {
    JObj(map["duration_seconds" := JNum(seconds)])
  }
}
