/** The Launch handler: it replaces the caller's browser session by a new one and hands
    back the cookie that names it. Starting Chrome, connecting to it and navigating are
    driver calls; their results (the two handles) are parameters here. */
module Launch {
  import opened Common
  import opened StatusBroker
  import opened Sessions
  import opened Hex

  /** The session cookie's name. */
  const CookieName: string := "squash-helper-session"
  const LaunchFailed: string := "세션 생성 중 오류가 발생했습니다. 잠시 후 다시 시도해주세요."
  const LaunchDone: string := "로그인 페이지 진입 완료"

  datatype SameSite = SameSiteLax

  /** The Set-Cookie header setSessionCookie writes. */
  datatype SessionCookie = SessionCookie(name: string, value: string, path: string, httpOnly: bool, sameSite: SameSite)

  /** setSessionCookie(w, id): a site-wide, HttpOnly, SameSite=Lax cookie carrying the id. */
  function SetSessionCookie(id: string): (c: SessionCookie)
    ensures c.value == id && c.name == CookieName
    ensures c.path == "/" && c.httpOnly && c.sameSite == SameSiteLax
  {
    SessionCookie(CookieName, id, "/", true, SameSiteLax)
  }

  /** Launch, with `browser` and `page` the handles of the Chrome instance it has just
      started and `random` the bytes drawn for the new id (None when the draw fails).
      The caller's previous session, if any, is retired and removed first. The new
      session is then registered: on success its id goes into the cookie and the reply
      is 200; on failure the new browser is closed (`closedNew`), no cookie is set, the
      reply is 500, and the registry keeps no trace of the new session. */
  method Launch(reg: Registry, cookie: Option<string>, browser: Handle, page: Handle, random: Option<seq<byte>>, now: int)
    returns (resp: Response, setCookie: Option<SessionCookie>, session: Session, closedOld: Option<Handle>, closedNew: Option<Handle>)
    requires reg.Valid()
    requires random.Some? ==> |random.value| == IdBytes
    modifies reg`sessions, reg.CookieEntry(cookie)
    ensures reg.Valid() && fresh(session)
    ensures old(reg.Knows(cookie)) ==>
      var s := old(reg.Named(cookie));
      && closedOld == old(s.browser)
      && s.browser.None? && s.page.None?
      && s.Status() == CloseChannel(Record(old(s.Status()), ClosedEvent(now)))
      && s.createdAt == old(s.createdAt) && s.lastActive == now
    ensures !old(reg.Knows(cookie)) ==> closedOld.None?
    ensures var base := if old(reg.Knows(cookie)) then old(reg.sessions) - {cookie.value} else old(reg.sessions);
      match GenerateSessionID(random)
      case Err(_) =>
        && reg.sessions == base
        && resp == HttpError(LaunchFailed, StatusInternalServerError)
        && setCookie.None? && closedNew == Some(browser)
      case Ok(id) =>
        && reg.sessions == base[id := session]
        && resp == Reply(StatusOK, LaunchDone)
        && setCookie == Some(SetSessionCookie(id)) && closedNew.None?
        && session.browser == Some(browser) && session.page == Some(page)
        && session.createdAt == now && session.lastActive == now
        && session.Status() == Fresh
  {
    var oldId, oldSession, ok := reg.GetSessionFromRequest(cookie, now);
    closedOld := None;
    if ok {
      closedOld := reg.CleanupSession(oldId, now);
    }
    session := new Session(browser, page);
    var r := reg.RegisterSession(session, random, now);
    if r.Err? {
      return HttpError(LaunchFailed, StatusInternalServerError), None, session, closedOld, Some(browser);
    }
    setCookie := Some(SetSessionCookie(r.value));
    resp := Reply(StatusOK, LaunchDone);
    closedNew := None;
  }

  /** handleLoginDialogs: of the JavaScript dialogs the login page opens, the first is
      dismissed and the second accepted; later ones are not answered. `arrived` is how
      many dialogs the page opened, and the result lists the answers given, in order
      (true for accept). */
  method HandleLoginDialogs(arrived: nat) returns (answers: seq<bool>)
    ensures |answers| == if arrived < 2 then arrived else 2
    ensures forall i :: 0 <= i < |answers| ==> answers[i] == (i == 1)
  {
    answers := [];
    if arrived >= 1 {
      answers := answers + [false];
    }
    if arrived >= 2 {
      answers := answers + [true];
    }
  }
}
