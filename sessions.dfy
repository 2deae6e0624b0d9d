/** The server's session state (server/app.go): one `Session` object per browser, and the
    process-wide registry that maps opaque ids to sessions. Each method body is one
    critical section of the source; the mutexes themselves are not modelled. */
module Sessions {
  import opened Common
  import opened Text
  import opened Hex
  import opened StatusBroker

  /** An opaque go-rod handle (a *rod.Browser or a *rod.Page). */
  datatype Handle = Handle(id: nat)

  datatype SessionError = TokenGenerationError

  /** Instants are nanoseconds counted from Go's zero time.Time, so IsZero is `t == ZeroTime`
      and now.Sub(t) is `now - t` (Go saturates Sub at about 292 years, which never changes
      a comparison with one hour). */
  const ZeroTime: int := 0
  /** sessionTTL = time.Hour. */
  const SessionTTL: int := 3_600_000_000_000
  /** The number of random bytes behind a session id. */
  const IdBytes: nat := 16
  /** The info event cleanupSession leaves behind. */
  const ClosedMessage: string := "세션이 종료되었습니다."

  /** The event cleanupSession pushes at time `now`. */
  function ClosedEvent(now: int): (ev: StatusEvent)
    ensures WellFormed(ev)
  {
    StatusEvent(InfoLevel, ClosedMessage, now)
  }

  /** After cleanupSession the cached status is the closing notice and no channel is
      open; the notice is what Subscribe hands a later subscriber as its backlog. */
  lemma TeardownCachesClosing(b: Broker, now: int)
    requires Inv(b)
    ensures var r := CloseChannel(Record(b, ClosedEvent(now)));
      && r.hasLast && r.last == ClosedEvent(now) && r.current.None?
      && forall g :: g in r.channels ==> r.channels[g].closed
  {
  }

  /** userSession: the two driver handles, the activity stamps and the status fields. */
  class Session {
    var browser: Option<Handle>
    var page: Option<Handle>
    var createdAt: int
    var lastActive: int
    var lastStatus: StatusEvent
    var hasLastStatus: bool
    var statusCh: Option<nat>
    var channels: map<nat, Channel>
    var nextGen: nat

    /** The status fields as a broker value. */
    function Status(): Broker
      reads this
    {
      Broker(lastStatus, hasLastStatus, statusCh, channels, nextGen)
    }

    /** Both handles are live or both are gone, and the broker invariant holds. */
    ghost predicate Valid()
      reads this
    {
      (browser.Some? <==> page.Some?) && Inv(Status())
    }

    /** `&userSession{browser: browser, page: page}` as Launch builds it. */
    constructor (browser: Handle, page: Handle)
      ensures Valid()
      ensures this.browser == Some(browser) && this.page == Some(page)
      ensures createdAt == ZeroTime && lastActive == ZeroTime && Status() == Fresh
    {
      this.browser := Some(browser);
      this.page := Some(page);
      createdAt := ZeroTime;
      lastActive := ZeroTime;
      lastStatus := NoEvent;
      hasLastStatus := false;
      statusCh := None;
      channels := map[];
      nextGen := 0;
      new;
      FreshInv();
    }

    /** pushStatus(level, message) at time `now`. */
    method PushStatus(level: string, message: string, now: int)
      requires Valid()
      modifies this`lastStatus, this`hasLastStatus, this`channels
      ensures Valid()
      ensures Status() == Push(old(Status()), level, message, now)
    {
      ghost var before := Status();
      var lv := TrimSpace(level);
      if lv == "" {
        lv := InfoLevel;
      }
      var msg := TrimSpace(message);
      if msg == "" {
        return;
      }
      var ev := StatusEvent(lv, msg, now);
      assert MakeEvent(level, message, now) == Some(ev);
      ghost var after := Record(before, ev);
      lastStatus := ev;
      hasLastStatus := true;
      if statusCh.Some? {
        var g := statusCh.value;
        if |channels[g].buffer| < Capacity {
          channels := channels[g := channels[g].(buffer := channels[g].buffer + [ev])];
        }
      }
      assert Status() == after;
    }

    /** pushInfo(message). */
    method PushInfo(message: string, now: int)
      requires Valid()
      modifies this`lastStatus, this`hasLastStatus, this`channels
      ensures Valid()
      ensures Status() == Push(old(Status()), InfoLevel, message, now)
    {
      PushStatus(InfoLevel, message, now);
    }

    /** pushError(message). */
    method PushError(message: string, now: int)
      requires Valid()
      modifies this`lastStatus, this`hasLastStatus, this`channels
      ensures Valid()
      ensures Status() == Push(old(Status()), ErrorLevel, message, now)
    {
      PushStatus(ErrorLevel, message, now);
    }

    /** subscribeStatus: returns the new channel's generation and the backlog; the cleanup
        closure it returns is `ReleaseSubscription(gen)`. */
    method SubscribeStatus() returns (gen: nat, history: seq<StatusEvent>)
      requires Valid()
      modifies this`statusCh, this`channels, this`nextGen
      ensures Valid()
      ensures var s := Subscribe(old(Status())); Status() == s.broker && gen == s.gen && history == s.backlog
    {
      if statusCh.Some? {
        var prev := statusCh.value;
        channels := channels[prev := Close(channels[prev])];
      }
      gen := nextGen;
      nextGen := nextGen + 1;
      channels := channels[gen := Channel([], false)];
      statusCh := Some(gen);
      history := [];
      if hasLastStatus {
        history := history + [lastStatus];
      }
    }

    /** The cleanup closure of subscribeStatus for the channel of generation `gen`. */
    method ReleaseSubscription(gen: nat)
      requires Valid()
      modifies this`statusCh, this`channels
      ensures Valid()
      ensures Status() == Unsubscribe(old(Status()), gen)
    {
      if statusCh == Some(gen) {
        channels := channels[gen := Close(channels[gen])];
        statusCh := None;
      }
    }

    /** closeStatusChannel. */
    method CloseStatusChannel()
      requires Valid()
      modifies this`statusCh, this`channels
      ensures Valid()
      ensures Status() == CloseChannel(old(Status()))
    {
      if statusCh.Some? {
        var g := statusCh.value;
        channels := channels[g := Close(channels[g])];
        statusCh := None;
      }
    }

    /** One receive by the holder of channel `gen` (the status stream's `<-ch`). */
    method Receive(gen: nat) returns (receipt: Receipt)
      requires Valid() && gen in channels
      modifies this`channels
      ensures Valid()
      ensures var r := StatusBroker.Receive(old(Status()), gen); Status() == r.broker && receipt == r.receipt
    {
      var c := channels[gen];
      if c.buffer != [] {
        receipt := Delivered(c.buffer[0]);
        channels := channels[gen := c.(buffer := c.buffer[1..])];
      } else if c.closed {
        receipt := Drained;
      } else {
        receipt := Pending;
      }
    }

    /** The part of cleanupSession done under session.mu: close the browser if there is
        one (its error is only logged) and drop both handles. */
    method ReleaseHandles() returns (closed: Option<Handle>)
      requires Valid()
      modifies this`browser, this`page
      ensures Valid()
      ensures closed == old(browser) && browser.None? && page.None?
      ensures Status() == old(Status())
    {
      closed := browser;
      browser := None;
      page := None;
    }

    /** What cleanupSession does to a session it has removed: release the handles, push
        the closing event, close the status channel. */
    method Teardown(now: int) returns (closed: Option<Handle>)
      requires Valid()
      modifies this`browser, this`page, this`lastStatus, this`hasLastStatus, this`channels, this`statusCh
      ensures Valid()
      ensures closed == old(browser) && browser.None? && page.None?
      ensures Status() == CloseChannel(Record(old(Status()), ClosedEvent(now)))
    {
      PushTrimmed(Status(), InfoLevel, ClosedMessage, now);
      closed := ReleaseHandles();
      PushInfo(ClosedMessage, now);
      CloseStatusChannel();
    }

    /** The state cleanupSession leaves a session in, against the state before it: both
        handles dropped, the closing notice recorded and then the channel closed, and the
        activity stamps kept. */
    twostate predicate TornDown(now: int)
      requires old(Valid())
      reads this
    {
      && browser.None? && page.None?
      && Status() == CloseChannel(Record(old(Status()), ClosedEvent(now)))
      && createdAt == old(createdAt) && lastActive == old(lastActive)
    }

    /** Sets lastActive, as every registry lookup does. */
    method Touch(now: int)
      requires Valid()
      modifies this`lastActive
      ensures Valid() && lastActive == now
    {
      lastActive := now;
    }
  }

  /** The reaper's eviction test: a nil entry, or one idle for strictly more than the TTL. */
  predicate Stale(s: Session?, now: int)
    reads s
  {
    s == null || now - s.lastActive > SessionTTL
  }

  /** generateSessionID, with the 16 bytes crypto/rand delivered (None when rand.Read
      failed): the id is the 32 lower-case hex digits that spell those bytes. */
  function GenerateSessionID(random: Option<seq<byte>>): (r: Result<string, SessionError>)
    requires random.Some? ==> |random.value| == IdBytes
    ensures r.Ok? <==> random.Some?
    ensures r.Ok? ==> |r.value| == 2 * IdBytes
    ensures r.Ok? ==> forall i :: 0 <= i < |r.value| ==> IsLowerHexDigit(r.value[i])
    ensures r.Ok? ==> DecodeHex(r.value) == Some(random.value)
  {
    match random
    case None => Err(TokenGenerationError)
    case Some(bs) => DecodeEncode(bs); Ok(EncodeHex(bs))
  }

  /** The session map (`sessions`, guarded by sessionMu in the source). A value may be nil. */
  class Registry {
    var sessions: map<string, Session?>

    constructor ()
      ensures sessions == map[] && Valid()
    {
      sessions := map[];
    }

    /** Every session is valid, and no session is held under two ids (Launch only ever
        registers a session it has just created). */
    ghost predicate Valid()
      reads this, sessions.Values
    {
      && (forall s :: s in sessions.Values && s != null ==> s.Valid())
      && (forall i, j :: i in sessions && j in sessions && i != j && sessions[i] != null ==> sessions[i] != sessions[j])
    }

    /** `id` names a non-nil session. */
    predicate Holds(id: string)
      reads this
      ensures Holds(id) ==> id in sessions && sessions[id] in sessions.Values
    {
      id in sessions && sessions[id] != null
    }

    /** The request's session cookie names a non-nil session. */
    predicate Knows(cookie: Option<string>)
      reads this
    {
      cookie.Some? && Holds(cookie.value)
    }

    /** The session the request's cookie names. */
    function Named(cookie: Option<string>): Session
      requires Knows(cookie)
      reads this
    {
      sessions[cookie.value]
    }

    /** The session object under `id`, as a frame. */
    function Entry(id: string): set<Session?>
      reads this
    {
      if Holds(id) then {sessions[id]} else {}
    }

    /** The session object a request's cookie names, as a frame. */
    function CookieEntry(cookie: Option<string>): set<Session?>
      reads this
    {
      if cookie.Some? then Entry(cookie.value) else {}
    }

    /** The ids the reaper evicts at time `now`. */
    ghost function ExpiredSet(now: int): (r: set<string>)
      reads this, sessions.Values
      ensures r <= sessions.Keys
    {
      set id | id in sessions && Stale(sessions[id], now)
    }

    /** registerSession: on a failed random read nothing changes; otherwise the session is
        stamped (createdAt only if still zero) and stored under its new id. */
    method RegisterSession(session: Session?, random: Option<seq<byte>>, now: int)
      returns (r: Result<string, SessionError>)
      requires Valid() && (session != null ==> session.Valid() && session !in sessions.Values)
      requires random.Some? ==> |random.value| == IdBytes
      modifies this`sessions, session
      ensures Valid()
      ensures r == GenerateSessionID(random)
      ensures r.Err? ==> sessions == old(sessions) && (session != null ==> unchanged(session))
      ensures r.Ok? ==> sessions == old(sessions)[r.value := session]
      ensures r.Ok? && session != null ==>
        && session.lastActive == now
        && session.createdAt == (if old(session.createdAt) == ZeroTime then now else old(session.createdAt))
        && session.Status() == old(session.Status())
        && session.browser == old(session.browser) && session.page == old(session.page)
    {
      r := GenerateSessionID(random);
      if r.Err? {
        return;
      }
      var id := r.value;
      if session != null {
        if session.createdAt == ZeroTime {
          session.createdAt := now;
        }
        session.Touch(now);
      }
      sessions := sessions[id := session];
    }

    /** cleanupSession: removes the entry; for a non-nil session also closes its browser,
        drops both handles, pushes the closing event and closes its status channel. A second
        call finds nothing and changes nothing. */
    method CleanupSession(id: string, now: int) returns (closed: Option<Handle>)
      requires Valid()
      modifies this`sessions, Entry(id)
      ensures Valid()
      ensures sessions == old(sessions) - {id}
      ensures !old(Holds(id)) ==> closed.None?
      ensures old(Holds(id)) ==> closed == old(sessions[id].browser) && old(sessions[id]).TornDown(now)
    {
      var ok := id in sessions;
      var session: Session? := null;
      if ok {
        session := sessions[id];
        sessions := sessions - {id};
      }
      if !ok || session == null {
        return None;
      }
      closed := session.Teardown(now);
    }

    /** getSessionFromRequest, given the value of the session cookie (None when the request
        has none): a hit touches lastActive, a miss changes nothing. */
    method GetSessionFromRequest(cookie: Option<string>, now: int)
      returns (id: string, session: Session?, ok: bool)
      requires Valid()
      modifies CookieEntry(cookie)
      ensures Valid() && sessions == old(sessions)
      ensures ok <==> cookie.Some? && Holds(cookie.value)
      ensures id == if cookie.Some? then cookie.value else ""
      ensures ok ==> session == sessions[id] && session.lastActive == now
      ensures ok ==> session.Status() == old(session.Status())
      ensures ok ==> session.browser == old(session.browser) && session.page == old(session.page)
      ensures ok ==> session.createdAt == old(session.createdAt)
      ensures !ok ==> session == null
    {
      if cookie.None? {
        return "", null, false;
      }
      id := cookie.value;
      if id in sessions && sessions[id] != null {
        session := sessions[id];
        session.Touch(now);
        ok := true;
      } else {
        session, ok := null, false;
      }
    }

    /** The scan of one reaper tick: every id whose session is nil or idle for more than the
        TTL, each once, in map iteration order. */
    method ExpiredIds(now: int) returns (expired: seq<string>)
      ensures forall id :: id in expired <==> id in sessions && Stale(sessions[id], now)
      ensures forall i, j :: 0 <= i < j < |expired| ==> expired[i] != expired[j]
    {
      expired := [];
      var remaining := sessions.Keys;
      while remaining != {}
        invariant remaining <= sessions.Keys
        invariant forall id :: id in expired ==> id in sessions && id !in remaining && Stale(sessions[id], now)
        invariant forall id :: id in sessions && id !in remaining && Stale(sessions[id], now) ==> id in expired
        invariant forall i, j :: 0 <= i < j < |expired| ==> expired[i] != expired[j]
        decreases remaining
      {
        var id :| id in remaining;
        if Stale(sessions[id], now) {
          expired := expired + [id];
        }
        remaining := remaining - {id};
      }
    }

    /** The eviction loop of a reaper tick: cleanupSession for each id in turn. `closed`
        lists, per id, the browser that call closed. */
    method EvictAll(ids: seq<string>, now: int) returns (closed: seq<Option<Handle>>)
      requires Valid()
      requires forall i, j :: 0 <= i < j < |ids| ==> ids[i] != ids[j]
      modifies this`sessions, sessions.Values
      ensures Valid()
      ensures sessions == old(sessions) - set id | id in ids
      ensures |closed| == |ids|
      ensures forall k :: 0 <= k < |ids| ==>
        closed[k] == if old(Holds(ids[k])) then old(sessions[ids[k]].browser) else None
      ensures forall i :: 0 <= i < |ids| && old(Holds(ids[i])) ==> old(sessions[ids[i]]).TornDown(now)
      ensures forall id :: id in sessions && sessions[id] != null ==> unchanged(sessions[id])
    {
      closed := [];
      for k := 0 to |ids|
        invariant Valid()
        invariant sessions == old(sessions) - set id | id in ids[..k]
        invariant |closed| == k
        invariant forall i :: 0 <= i < k ==>
          if old(Holds(ids[i])) then closed[i] == old(sessions[ids[i]].browser) && old(sessions[ids[i]]).TornDown(now)
          else closed[i].None?
        invariant forall id :: id in sessions && sessions[id] != null ==> unchanged(sessions[id])
      {
        var id := ids[k];
        assert id !in ids[..k];
        assert ids[..k + 1] == ids[..k] + [id];
        var c := CleanupSession(id, now);
        closed := closed + [c];
      }
      assert ids[..|ids|] == ids;
    }

    /** One reaper tick: scan, then clean up every expired id. Afterwards no stale entry
        is left, every evicted session has been torn down once, and the sessions kept are
        untouched. */
    method Reap(now: int) returns (expired: seq<string>, closed: seq<Option<Handle>>)
      requires Valid()
      modifies this`sessions, sessions.Values
      ensures Valid()
      ensures forall id :: id in expired <==> id in old(ExpiredSet(now))
      ensures forall i, j :: 0 <= i < j < |expired| ==> expired[i] != expired[j]
      ensures sessions == old(sessions) - old(ExpiredSet(now))
      ensures forall id :: id in sessions ==> !Stale(sessions[id], now)
      ensures |closed| == |expired|
      ensures forall k :: 0 <= k < |expired| ==>
        closed[k] == if old(Holds(expired[k])) then old(sessions[expired[k]].browser) else None
      ensures forall id :: id in old(ExpiredSet(now)) && old(Holds(id)) ==> old(sessions[id]).TornDown(now)
      ensures forall id :: id in sessions && sessions[id] != null ==> unchanged(sessions[id])
    {
      expired := ExpiredIds(now);
      assert (set id | id in expired) == ExpiredSet(now);
      closed := EvictAll(expired, now);
    }
  }
}
