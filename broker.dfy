/** The per-session status broker as a state machine over values: the cached last event,
    the current subscriber (a channel generation) and every channel handed out so far.
    A channel is a bounded buffer with a closed flag; a generation number stands for the
    identity of a Go channel, so "is this still the current channel" is `current == Some(gen)`. */
module StatusBroker {
  import opened Common
  import opened Text

  /** The buffer size of every subscriber channel (make(chan statusEvent, 16)). */
  const Capacity: nat := 16
  const InfoLevel: string := "info"
  const ErrorLevel: string := "error"

  datatype StatusEvent = StatusEvent(level: string, message: string, at: int)

  datatype Channel = Channel(buffer: seq<StatusEvent>, closed: bool)

  datatype Broker = Broker(
    last: StatusEvent,           // lastStatus
    hasLast: bool,               // hasLastStatus
    current: Option<nat>,        // statusCh: the generation of the live channel, if any
    channels: map<nat, Channel>, // every channel ever handed to a subscriber
    nextGen: nat)                // the generation the next subscription gets

  /** What subscribeStatus hands back: the new state, the channel and the backlog. */
  datatype Subscription = Subscription(broker: Broker, gen: nat, backlog: seq<StatusEvent>)

  /** The outcome of `ev, ok := <-ch`: an event, `ok == false` (closed and drained), or
      nothing yet (the receiver would block). */
  datatype Receipt = Delivered(event: StatusEvent) | Drained | Pending

  datatype Reception = Reception(broker: Broker, receipt: Receipt)

  /** One call of pushStatus(level, message) at time `at`. */
  datatype Post = Post(level: string, message: string, at: int)

  /** The zero value of a statusEvent. */
  const NoEvent: StatusEvent := StatusEvent("", "", 0)

  /** The status fields of a freshly allocated session. */
  const Fresh: Broker := Broker(NoEvent, false, None, map[], 0)

  /** An event as pushStatus records it: level and message non-empty and already trimmed. */
  predicate WellFormed(ev: StatusEvent) {
    && ev.level != [] && Trimmed(ev.level, IsGoSpace)
    && ev.message != [] && Trimmed(ev.message, IsGoSpace)
  }

  /** The broker invariant: buffers within capacity holding well-formed events, generations
      below the counter, and the current channel is the one and only open channel. */
  predicate Inv(b: Broker) {
    && (b.hasLast ==> WellFormed(b.last))
    && (forall g :: g in b.channels ==> g < b.nextGen && |b.channels[g].buffer| <= Capacity)
    && (forall g, i :: g in b.channels && 0 <= i < |b.channels[g].buffer| ==> WellFormed(b.channels[g].buffer[i]))
    && (b.current.Some? ==> b.current.value in b.channels && !b.channels[b.current.value].closed)
    && (forall g :: g in b.channels && !b.channels[g].closed ==> b.current == Some(g))
  }

  lemma FreshInv()
    ensures Inv(Fresh)
  {
  }

  /** A blank level becomes "info"; otherwise the level is trimmed. */
  function NormalizeLevel(level: string): (r: string)
    ensures r != [] && Trimmed(r, IsGoSpace)
    ensures !IsBlank(level) ==> r == TrimSpace(level)
    ensures IsBlank(level) ==> r == InfoLevel
  {
    var l := TrimSpace(level);
    if l == "" then InfoLevel else l
  }

  /** The event pushStatus builds, or None when the trimmed message is empty. */
  function MakeEvent(level: string, message: string, at: int): (r: Option<StatusEvent>)
    ensures r.None? <==> IsBlank(message)
    ensures r.Some? ==> WellFormed(r.value) && r.value.at == at
    ensures r.Some? ==> r.value.message == TrimSpace(message) && r.value.level == NormalizeLevel(level)
  {
    var m := TrimSpace(message);
    if m == "" then None else Some(StatusEvent(NormalizeLevel(level), m, at))
  }

  /** A non-blocking send (`select { case ch <- ev: default: }`); sending on a closed
      channel would panic, hence the precondition. */
  function Offer(c: Channel, ev: StatusEvent): Channel
    requires !c.closed
  {
    if |c.buffer| < Capacity then c.(buffer := c.buffer + [ev]) else c
  }

  /** close(ch); closing a closed channel would panic, hence the precondition. */
  function Close(c: Channel): Channel
    requires !c.closed
  {
    c.(closed := true)
  }

  /** pushStatus. What it records and delivers is stated by PushRecords and PushDelivers. */
  function Push(b: Broker, level: string, message: string, at: int): (r: Broker)
    requires Inv(b)
    ensures Inv(r)
  {
    match MakeEvent(level, message, at)
    case None => b
    case Some(ev) => Record(b, ev)
  }

  /** The locked half of pushStatus: cache the event and offer it to the current channel. */
  function Record(b: Broker, ev: StatusEvent): (r: Broker)
    requires Inv(b) && WellFormed(ev)
    ensures Inv(r)
  {
    var recorded := b.(last := ev, hasLast := true);
    if b.current.Some? then
      var g := b.current.value;
      recorded.(channels := b.channels[g := Offer(b.channels[g], ev)])
    else recorded
  }

  /** Pushing a message that is already trimmed records it as it is. */
  lemma PushTrimmed(b: Broker, level: string, message: string, at: int)
    requires Inv(b) && message != [] && Trimmed(message, IsGoSpace)
    requires level != [] && Trimmed(level, IsGoSpace)
    ensures WellFormed(StatusEvent(level, message, at))
    ensures Push(b, level, message, at) == Record(b, StatusEvent(level, message, at))
  {
    TrimmedIsFixpoint(message, IsGoSpace);
    TrimmedIsFixpoint(level, IsGoSpace);
  }

  /** pushStatus normalises first: a blank message changes nothing at all; any other message
      becomes the cached last event, trimmed, with a blank level turned into "info". */
  lemma PushRecords(b: Broker, level: string, message: string, at: int)
    requires Inv(b)
    ensures IsBlank(message) ==> Push(b, level, message, at) == b
    ensures !IsBlank(message) ==>
      var r := Push(b, level, message, at);
      && r.hasLast && r.last == MakeEvent(level, message, at).value
      && r.last.message == TrimSpace(message) && r.last.level == NormalizeLevel(level)
  {
  }

  /** Delivery is non-blocking: the event is enqueued only on the current channel and only
      if it has room; otherwise it is dropped. No subscriber changes, no channel opens or
      closes, and no other channel is touched. */
  lemma PushDelivers(b: Broker, level: string, message: string, at: int)
    requires Inv(b)
    ensures var r := Push(b, level, message, at);
      && r.current == b.current && r.nextGen == b.nextGen && r.channels.Keys == b.channels.Keys
      && (forall g :: g in b.channels && b.current != Some(g) ==> r.channels[g] == b.channels[g])
      && (forall g :: g in b.channels ==> r.channels[g].closed == b.channels[g].closed)
      && (b.current.Some? ==>
            var before := b.channels[b.current.value].buffer;
            r.channels[b.current.value].buffer ==
              if !IsBlank(message) && |before| < Capacity then before + [r.last] else before)
  {
  }

  /** subscribeStatus: the previous channel, if any, is closed; a fresh empty channel becomes
      the current one; the backlog is the cached last event, if there is one. */
  function Subscribe(b: Broker): (s: Subscription)
    requires Inv(b)
    ensures Inv(s.broker)
    ensures s.gen !in b.channels && s.gen == b.nextGen && s.broker.nextGen == b.nextGen + 1
    ensures s.broker.current == Some(s.gen) && s.broker.channels[s.gen] == Channel([], false)
    ensures s.broker.channels.Keys == b.channels.Keys + {s.gen}
    ensures s.backlog == if b.hasLast then [b.last] else []
    ensures s.broker.last == b.last && s.broker.hasLast == b.hasLast
    ensures b.current.Some? ==> s.broker.channels[b.current.value] == b.channels[b.current.value].(closed := true)
    ensures forall g :: g in b.channels && b.current != Some(g) ==> s.broker.channels[g] == b.channels[g]
  {
    var closed := if b.current.Some? then b.channels[b.current.value := Close(b.channels[b.current.value])] else b.channels;
    var g := b.nextGen;
    var nb := b.(current := Some(g), channels := closed[g := Channel([], false)], nextGen := g + 1);
    Subscription(nb, g, if b.hasLast then [b.last] else [])
  }

  /** The cleanup closure of subscribeStatus: it closes and clears the channel only while it
      is still the current one; for a stale generation it changes nothing. */
  function Unsubscribe(b: Broker, gen: nat): (r: Broker)
    requires Inv(b)
    ensures Inv(r)
    ensures b.current != Some(gen) ==> r == b
    ensures b.current == Some(gen) ==>
      && r.current.None? && r.channels.Keys == b.channels.Keys
      && r.channels[gen] == b.channels[gen].(closed := true)
      && (forall g :: g in b.channels && g != gen ==> r.channels[g] == b.channels[g])
    ensures r.last == b.last && r.hasLast == b.hasLast && r.nextGen == b.nextGen
  {
    if b.current == Some(gen) then
      b.(current := None, channels := b.channels[gen := Close(b.channels[gen])])
    else b
  }

  /** closeStatusChannel: afterwards no channel is open and no subscriber is registered;
      buffered events stay readable. */
  function CloseChannel(b: Broker): (r: Broker)
    requires Inv(b)
    ensures Inv(r)
    ensures r.current.None? && r.channels.Keys == b.channels.Keys
    ensures forall g :: g in r.channels ==> r.channels[g].closed && r.channels[g].buffer == b.channels[g].buffer
    ensures r.last == b.last && r.hasLast == b.hasLast && r.nextGen == b.nextGen
    ensures b.current.None? ==> r == b
  {
    if b.current.Some? then
      var g := b.current.value;
      b.(current := None, channels := b.channels[g := Close(b.channels[g])])
    else b
  }

  /** `ev, ok := <-ch` on a channel handed out earlier: buffered events come first, in order,
      even after close; a closed and drained channel reports ok == false. */
  function Receive(b: Broker, gen: nat): (r: Reception)
    requires Inv(b) && gen in b.channels
    ensures Inv(r.broker)
    ensures r.broker.current == b.current && r.broker.channels.Keys == b.channels.Keys
    ensures r.receipt.Delivered? <==> b.channels[gen].buffer != []
    ensures r.receipt.Drained? <==> b.channels[gen].buffer == [] && b.channels[gen].closed
    ensures r.receipt.Delivered? ==>
      && r.receipt.event == b.channels[gen].buffer[0]
      && r.broker.channels[gen].buffer == b.channels[gen].buffer[1..]
    ensures forall g :: g in b.channels && g != gen ==> r.broker.channels[g] == b.channels[g]
    ensures r.broker.channels[gen].closed == b.channels[gen].closed
  {
    var c := b.channels[gen];
    if c.buffer != [] then
      Reception(b.(channels := b.channels[gen := c.(buffer := c.buffer[1..])]), Delivered(c.buffer[0]))
    else if c.closed then Reception(b, Drained)
    else Reception(b, Pending)
  }

  /** The state after a sequence of pushStatus calls. */
  function PushAll(b: Broker, posts: seq<Post>): (r: Broker)
    requires Inv(b)
    ensures Inv(r) && r.current == b.current && r.channels.Keys == b.channels.Keys
    decreases |posts|
  {
    if posts == [] then b
    else
      var p := posts[|posts| - 1];
      Push(PushAll(b, posts[..|posts| - 1]), p.level, p.message, p.at)
  }

  /** Pushes never change the subscriber, never add or remove a channel, and leave every
      channel but the current one as it was. */
  lemma {:induction false} PushAllFrame(b: Broker, posts: seq<Post>)
    requires Inv(b)
    ensures var r := PushAll(b, posts);
      && r.current == b.current && r.nextGen == b.nextGen && r.channels.Keys == b.channels.Keys
      && (forall g :: g in b.channels && b.current != Some(g) ==> r.channels[g] == b.channels[g])
    decreases |posts|
  {
    if posts != [] {
      var p := posts[|posts| - 1];
      PushAllFrame(b, posts[..|posts| - 1]);
      PushDelivers(PushAll(b, posts[..|posts| - 1]), p.level, p.message, p.at);
    }
  }

  /** One more push extends the replay by one step. */
  lemma PushAllSnoc(b: Broker, posts: seq<Post>, p: Post)
    requires Inv(b)
    ensures PushAll(b, posts + [p]) == Push(PushAll(b, posts), p.level, p.message, p.at)
  {
    assert (posts + [p])[..|posts|] == posts;
  }

  /** Replaying two batches one after the other is replaying their concatenation. */
  lemma {:induction false} PushAllAppend(b: Broker, xs: seq<Post>, ys: seq<Post>)
    requires Inv(b)
    ensures PushAll(PushAll(b, xs), ys) == PushAll(b, xs + ys)
    decreases |ys|
  {
    if ys != [] {
      var init := ys[..|ys| - 1];
      var p := ys[|ys| - 1];
      var mid := PushAll(b, xs);
      assert ys == init + [p];
      assert xs + ys == (xs + init) + [p];
      calc {
        PushAll(mid, ys);
        { PushAllSnoc(mid, init, p); }
        Push(PushAll(mid, init), p.level, p.message, p.at);
        { PushAllAppend(b, xs, init); }
        Push(PushAll(b, xs + init), p.level, p.message, p.at);
        { PushAllSnoc(b, xs + init, p); }
        PushAll(b, xs + ys);
      }
    } else {
      assert xs + ys == xs;
    }
  }

  /** When the last push carries an already trimmed level and message, that event is what
      a subscriber arriving afterwards is shown. */
  lemma LastPostShown(b: Broker, posts: seq<Post>)
    requires Inv(b) && posts != []
    requires var p := posts[|posts| - 1];
      p.message != [] && Trimmed(p.message, IsGoSpace) && p.level != [] && Trimmed(p.level, IsGoSpace)
    ensures var p := posts[|posts| - 1]; var r := PushAll(b, posts);
      r.hasLast && r.last == StatusEvent(p.level, p.message, p.at)
  {
    var p := posts[|posts| - 1];
    PushTrimmed(PushAll(b, posts[..|posts| - 1]), p.level, p.message, p.at);
  }

  /** Every event of `evs` is as pushStatus would record it. */
  predicate AllWellFormed(evs: seq<StatusEvent>) {
    forall i :: 0 <= i < |evs| ==> WellFormed(evs[i])
  }

  lemma AllWellFormedAppend(xs: seq<StatusEvent>, ys: seq<StatusEvent>)
    requires AllWellFormed(xs) && AllWellFormed(ys)
    ensures AllWellFormed(xs + ys)
  {
    forall i | 0 <= i < |xs + ys|
      ensures WellFormed((xs + ys)[i])
    {
      if i < |xs| {
        assert (xs + ys)[i] == xs[i];
      } else {
        assert (xs + ys)[i] == ys[i - |xs|];
      }
    }
  }

  /** The state after recording a sequence of already normalised events, in order. */
  function RecordAll(b: Broker, evs: seq<StatusEvent>): (r: Broker)
    requires Inv(b) && AllWellFormed(evs)
    ensures Inv(r) && r.current == b.current && r.channels.Keys == b.channels.Keys
    decreases |evs|
  {
    if evs == [] then b
    else Record(RecordAll(b, evs[..|evs| - 1]), evs[|evs| - 1])
  }

  /** Recording one more event extends the replay by one step. */
  lemma RecordAllSnoc(b: Broker, evs: seq<StatusEvent>, ev: StatusEvent)
    requires Inv(b) && AllWellFormed(evs) && WellFormed(ev)
    ensures AllWellFormed(evs + [ev])
    ensures RecordAll(b, evs + [ev]) == Record(RecordAll(b, evs), ev)
  {
    assert (evs + [ev])[..|evs|] == evs;
  }

  /** Recording two batches one after the other is recording their concatenation. */
  lemma {:induction false} RecordAllAppend(b: Broker, xs: seq<StatusEvent>, ys: seq<StatusEvent>)
    requires Inv(b) && AllWellFormed(xs) && AllWellFormed(ys)
    ensures AllWellFormed(xs + ys)
    ensures RecordAll(RecordAll(b, xs), ys) == RecordAll(b, xs + ys)
    decreases |ys|
  {
    if ys == [] {
      assert xs + ys == xs;
    } else {
      var init := ys[..|ys| - 1];
      var ev := ys[|ys| - 1];
      assert ys == init + [ev];
      assert xs + ys == (xs + init) + [ev];
      RecordAllAppend(b, xs, init);
      RecordAllSnoc(RecordAll(b, xs), init, ev);
      RecordAllSnoc(b, xs + init, ev);
    }
  }

  /** After recording at least one event, the last of them is the cached last event. */
  lemma RecordAllShowsLast(b: Broker, evs: seq<StatusEvent>)
    requires Inv(b) && AllWellFormed(evs) && evs != []
    ensures RecordAll(b, evs).hasLast && RecordAll(b, evs).last == evs[|evs| - 1]
  {
  }

  /** The pushes of messages that are already normalised record exactly those events:
      this is what lets a handler that posts fixed messages be described by RecordAll. */
  lemma {:induction false} PushAllOfNormalised(b: Broker, evs: seq<StatusEvent>)
    requires Inv(b) && AllWellFormed(evs)
    ensures PushAll(b, seq(|evs|, i requires 0 <= i < |evs| => Post(evs[i].level, evs[i].message, evs[i].at)))
         == RecordAll(b, evs)
    decreases |evs|
  {
    var posts := seq(|evs|, i requires 0 <= i < |evs| => Post(evs[i].level, evs[i].message, evs[i].at));
    if evs != [] {
      var init := evs[..|evs| - 1];
      var ev := evs[|evs| - 1];
      PushAllOfNormalised(b, init);
      assert posts[..|posts| - 1] == seq(|init|, i requires 0 <= i < |init| => Post(init[i].level, init[i].message, init[i].at));
      PushTrimmed(RecordAll(b, init), ev.level, ev.message, ev.at);
    }
  }

  /** The events a sequence of pushes records, in emission order (blank messages vanish). */
  function Events(posts: seq<Post>): seq<StatusEvent>
    decreases |posts|
  {
    if posts == [] then []
    else
      var p := posts[|posts| - 1];
      Events(posts[..|posts| - 1]) + Recorded(p)
  }

  /** The cached last event after a sequence of pushes is the last event they recorded. */
  lemma {:induction false} LastIsLatest(b: Broker, posts: seq<Post>)
    requires Inv(b)
    ensures var e := Events(posts); var r := PushAll(b, posts);
      if e != [] then r.hasLast && r.last == e[|e| - 1] else r.hasLast == b.hasLast && r.last == b.last
    decreases |posts|
  {
    if posts != [] {
      var init := posts[..|posts| - 1];
      var p := posts[|posts| - 1];
      LastIsLatest(b, init);
      PushCaches(PushAll(b, init), p);
      var e0 := Events(init);
      assert Events(posts) == e0 + Recorded(p);
      if Recorded(p) == [] {
        assert Events(posts) == e0;
      }
    }
  }

  /** One push caches what it records, and leaves the cache alone if it records nothing. */
  lemma PushCaches(b: Broker, p: Post)
    requires Inv(b)
    ensures var r := Push(b, p.level, p.message, p.at);
      && (Recorded(p) == [] ==> r.hasLast == b.hasLast && r.last == b.last)
      && (Recorded(p) != [] ==> r.hasLast && r.last == Recorded(p)[0])
  {
    PushRecords(b, p.level, p.message, p.at);
  }

  /** Replay: a subscriber arriving after any sequence of pushes is handed exactly the most
      recent recorded event (or the one cached before, or nothing if there never was one). */
  lemma BacklogIsLatest(b: Broker, posts: seq<Post>)
    requires Inv(b)
    ensures var e := Events(posts);
      Subscribe(PushAll(b, posts)).backlog ==
        if e != [] then [e[|e| - 1]] else if b.hasLast then [b.last] else []
  {
    LastIsLatest(b, posts);
  }

  /** The first `n` elements of `s`, or all of it when it is shorter. */
  function Take<T>(s: seq<T>, n: nat): seq<T> {
    if |s| <= n then s else s[..n]
  }

  /** The events one push records: its event, or nothing for a blank message. */
  function Recorded(p: Post): (evs: seq<StatusEvent>)
    ensures |evs| <= 1
  {
    match MakeEvent(p.level, p.message, p.at) case Some(ev) => [ev] case None => []
  }

  /** One push appends what it records to the current channel, if there is room. */
  lemma PushOffers(b: Broker, p: Post)
    requires Inv(b) && b.current.Some?
    ensures var buf := b.channels[b.current.value].buffer;
      Push(b, p.level, p.message, p.at).channels[b.current.value].buffer ==
        if |buf| < Capacity then buf + Recorded(p) else buf
  {
    PushDelivers(b, p.level, p.message, p.at);
    PushRecords(b, p.level, p.message, p.at);
    if IsBlank(p.message) {
      assert b.channels[b.current.value].buffer + [] == b.channels[b.current.value].buffer;
    }
  }

  /** Cutting after appending at most one element. */
  lemma TakeExtend<T>(s: seq<T>, extra: seq<T>, n: nat)
    requires |extra| <= 1
    ensures Take(s + extra, n) == if |Take(s, n)| < n then Take(s, n) + extra else Take(s, n)
  {
    if |s| >= n && extra != [] {
      assert (s + extra)[..n] == s[..n];
    }
  }

  /** Pushes fill an empty current channel with the recorded events in order, up to
      Capacity, and drop the rest. */
  lemma {:induction false} CurrentChannelFills(b: Broker, posts: seq<Post>)
    requires Inv(b) && b.current.Some? && b.channels[b.current.value].buffer == []
    ensures PushAll(b, posts).channels[b.current.value].buffer == Take(Events(posts), Capacity)
    decreases |posts|
  {
    if posts != [] {
      var init := posts[..|posts| - 1];
      var p := posts[|posts| - 1];
      CurrentChannelFills(b, init);
      var mid := PushAll(b, init);
      assert Events(posts) == Events(init) + Recorded(p);
      PushOffers(mid, p);
      TakeExtend(Events(init), Recorded(p), Capacity);
    }
  }

  /** Delivery to a subscriber nobody drains: it receives the first Capacity events pushed
      after it subscribed, in order; every later one is dropped. */
  lemma UndrainedSubscriberGetsFirstEvents(b: Broker, posts: seq<Post>)
    requires Inv(b)
    ensures var s := Subscribe(b);
      PushAll(s.broker, posts).channels[s.gen].buffer == Take(Events(posts), Capacity)
  {
    CurrentChannelFills(Subscribe(b).broker, posts);
  }

  /** Single current subscriber: after a second subscription the first channel is closed,
      receives none of the later events, and its stale cleanup leaves the newer subscriber
      untouched. */
  lemma {:induction false} SecondSubscriptionIsolatesFirst(b: Broker, posts: seq<Post>)
    requires Inv(b)
    ensures var s1 := Subscribe(b); var s2 := Subscribe(s1.broker);
      var after := PushAll(s2.broker, posts);
      && s1.gen != s2.gen
      && after.channels[s1.gen] == Channel([], true)
      && after.current == Some(s2.gen) && !after.channels[s2.gen].closed
      && Unsubscribe(after, s1.gen) == after
  {
    var s1 := Subscribe(b);
    var s2 := Subscribe(s1.broker);
    PushAllFrame(s2.broker, posts);
    assert s2.broker.channels[s1.gen] == Channel([], true);
  }
}
