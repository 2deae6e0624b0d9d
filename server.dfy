/** The server's Login and Action handlers (server/app.go). Each handler looks the session
    up from the request's cookie, narrates its progress on the session's status broker and
    drives the page. The page is a value (module Dom); what the driver reports after a
    navigation or a login attempt is a parameter. The behaviour of one handler is first
    stated as a function (LoginSteps, Dispatch), and the handler method is proved to do
    exactly that; the lemmas below say what those functions promise. */
module Server {
  import opened Common
  import opened Text
  import opened StatusBroker
  import opened Sessions
  import opened Dom

  /** The JSON body of a login request. */
  datatype Credentials = Credentials(id: string, password: string)

  /** What Login does once its session is found: the reply, the credentials it typed into
      the form, the login button it clicked, and the status events it records, in order. */
  datatype LoginRun = LoginRun(resp: Response, typed: Option<Credentials>, clicked: Option<nat>, events: seq<StatusEvent>)

  /** What Action does once its session is found: the reply, the page it leaves behind,
      the reservation link it clicked, and the status events it records, in order. */
  datatype ActionRun = ActionRun(resp: Response, page: Page, clicked: Option<nat>, events: seq<StatusEvent>)

  /** The status messages of one selection step: before it, after success, after failure. */
  datatype Narration = Narration(announce: string, done: string, failed: string)

  const MethodOnly: string := "POST 메서드만 허용됩니다."
  const NoSession: string := "활성화된 브라우저 세션이 없습니다. 먼저 브라우저 실행을 진행해주세요."
  const LoginRequested: string := "로그인 요청을 처리합니다."
  const ParseFailed: string := "요청 본문 파싱에 실패했습니다."
  const MissingCredentialsStatus: string := "아이디와 비밀번호를 모두 입력해 주세요."
  const MissingCredentialsReply: string := "아이디와 비밀번호를 모두 입력해주세요."
  const FindingId: string := "아이디 입력 필드를 찾습니다."
  const TypedId: string := "아이디 입력을 완료했습니다."
  const FindingPassword: string := "비밀번호 입력 필드를 찾습니다."
  const TypedPassword: string := "비밀번호 입력을 완료했습니다."
  const ClickingLogin: string := "로그인 버튼을 클릭합니다."
  const ClickedLogin: string := "로그인 버튼을 클릭했습니다."
  const CheckingLogin: string := "로그인 결과를 확인 중입니다."
  const LoginFailedStatus: string := "로그인에 실패했습니다. 아이디와 비밀번호를 확인해 주세요."
  const LoginFailedReply: string := "로그인 실패하였습니다. 아이디와 비밀번호를 확인해주세요."
  const LoginSucceeded: string := "로그인에 성공했습니다."
  const LoginDone: string := "로그인 완료"
  /** The text of the button Login clicks. */
  const LoginButtonText: string := "로그인"
  /** Where a rejected login lands: the single sign-on host. */
  const SsoPrefix: string := "https://newsso.anyang.go.kr/"

  const Navigating: string := "강습 목록 페이지로 이동합니다."
  const Navigated: string := "강습 목록 페이지 로딩이 완료되었습니다."
  const SearchingSlot: string := "조건에 맞는 강습 시간을 찾는 중입니다."
  const SearchingRegularSlot: string := "조건에 맞는 정기 강습 시간을 찾는 중입니다."
  const SlotDone: string := "강습 시간 선택을 완료했습니다."
  const SlotFailed: string := "조건에 맞는 강습 시간을 찾지 못했습니다."
  const UnknownCode: string := "알 수 없는 작업 코드입니다."

  const AreaSay: Narration := Narration("강습 구분을 선택합니다.", "강습 구분 선택을 완료했습니다.", "강습 구분 선택에 실패했습니다.")
  const CourseSay: Narration := Narration("강습 과정을 선택합니다.", "강습 과정 선택을 완료했습니다.", "강습 과정 선택에 실패했습니다.")

  /** The status message Action posts first for a non-empty code. */
  function CodeStarted(code: string): string {
    "요청 코드 " + code + " 작업을 시작합니다."
  }

  /** What pushInfo(message) records for a message that is already trimmed. */
  function Info(message: string, now: int): StatusEvent {
    StatusEvent(InfoLevel, message, now)
  }

  /** What pushError(message) records for a message that is already trimmed. */
  function Error(message: string, now: int): StatusEvent {
    StatusEvent(ErrorLevel, message, now)
  }

  /** Every fixed message Login posts is already trimmed. */
  lemma LoginMessagesTrimmed(now: int)
    ensures WellFormed(Info(LoginRequested, now)) && WellFormed(Error(MissingCredentialsStatus, now))
    ensures WellFormed(Info(ClickedLogin, now)) && WellFormed(Info(CheckingLogin, now))
    ensures WellFormed(Error(LoginFailedStatus, now)) && WellFormed(Info(LoginSucceeded, now))
  {
  }

  /** Every fixed message Action posts is already trimmed. */
  lemma ActionMessagesTrimmed(now: int)
    ensures WellFormed(Info(Navigating, now)) && WellFormed(Info(Navigated, now))
    ensures WellFormed(Info(SearchingSlot, now)) && WellFormed(Info(SearchingRegularSlot, now))
    ensures WellFormed(Info(SlotDone, now)) && WellFormed(Error(SlotFailed, now))
    ensures WellFormed(Info(AreaSay.announce, now)) && WellFormed(Info(AreaSay.done, now)) && WellFormed(Error(AreaSay.failed, now))
    ensures WellFormed(Info(CourseSay.announce, now)) && WellFormed(Info(CourseSay.done, now)) && WellFormed(Error(CourseSay.failed, now))
  {
  }

  /** The start message is trimmed whatever the code, since it begins and ends with text. */
  lemma CodeStartedTrimmed(code: string, now: int)
    ensures WellFormed(Info(CodeStarted(code), now))
  {
    var m := CodeStarted(code);
    assert m[0] == '요';
    assert m[|m| - 1] == '.';
  }

  predicate IsLoginButton(text: string) {
    text == LoginButtonText
  }

  /** A login request whose id or password is blank after trimming. */
  predicate MissingField(c: Credentials) {
    IsBlank(c.id) || IsBlank(c.password)
  }

  /** Login after its session was found, given the decoded body (None when decoding
      failed), the page before the form is filled and the address the page settles on. */
  function LoginSteps(payload: Option<Credentials>, p: Page, settledUrl: string, now: int): (r: LoginRun)
    ensures AllWellFormed(r.events)
  {
    LoginMessagesTrimmed(now);
    var head := [Info(LoginRequested, now)];
    if payload.None? then
      LoginRun(HttpError(ParseFailed, StatusBadRequest), None, None, head)
    else if MissingField(payload.value) then
      LoginRun(HttpError(MissingCredentialsReply, StatusBadRequest), None, None, head + [Error(MissingCredentialsStatus, now)])
    else
      var clicked := FirstIndex(p.buttons, IsLoginButton);
      AllWellFormedAppend(head, SubmitEvents(clicked.Some?, settledUrl, now));
      var events := head + SubmitEvents(clicked.Some?, settledUrl, now);
      if HasPrefix(settledUrl, SsoPrefix) then
        LoginRun(HttpError(LoginFailedReply, StatusForbidden), payload, clicked, events)
      else
        LoginRun(Reply(StatusOK, LoginDone), payload, clicked, events)
  }

  /** The events of one selection step: the announcement, then success or failure. */
  function SelectEvents(ok: bool, say: Narration, now: int): (evs: seq<StatusEvent>)
    requires say == AreaSay || say == CourseSay
    ensures AllWellFormed(evs)
  {
    ActionMessagesTrimmed(now);
    [Info(say.announce, now)] + [if ok then Info(say.done, now) else Error(say.failed, now)]
  }

  /** The events of the reservation-link search. */
  function SlotEvents(found: bool, searching: string, now: int): (evs: seq<StatusEvent>)
    requires searching == SearchingSlot || searching == SearchingRegularSlot
    ensures AllWellFormed(evs)
  {
    ActionMessagesTrimmed(now);
    [Info(searching, now)] + [if found then Info(SlotDone, now) else Error(SlotFailed, now)]
  }

  /** Code "1" or "2": one selection step, answered on its own. */
  function SelectRun(p: Page, step: Step, say: Narration, now: int): (r: ActionRun)
    requires say == AreaSay || say == CourseSay
    ensures AllWellFormed(r.events)
  {
    var sel := ForceSelect(p, step.selector, step.want);
    ActionRun(if sel.ok then Reply(StatusOK, step.okBody) else HttpError(step.failBody, StatusNotFound),
              sel.page, None, SelectEvents(sel.ok, say, now))
  }

  /** Code "3", and the last stage of code "4": click the first qualifying reservation link.
      The page the click leads to is not represented; `page` is the one clicked on. */
  function SlotRun(p: Page, searching: string, now: int): (r: ActionRun)
    requires searching == SearchingSlot || searching == SearchingRegularSlot
    ensures AllWellFormed(r.events)
  {
    var clicked := FirstIndex(p.registLinks, IsSlotLink);
    ActionRun(if clicked.Some? then Reply(StatusOK, SlotOkBody) else HttpError(SlotMissingBody, StatusNotFound),
              p, clicked, SlotEvents(clicked.Some?, searching, now))
  }

  /** Code "4" on the freshly loaded lesson list: area, then course, then the slot; the
      first failing step answers and nothing after it runs. */
  function CompositeRun(listing: Page, now: int): (r: ActionRun)
    ensures AllWellFormed(r.events)
  {
    ActionMessagesTrimmed(now);
    var nav := [Info(Navigating, now)] + [Info(Navigated, now)];
    var area := ForceSelect(listing, AreaStep.selector, AreaStep.want);
    AllWellFormedAppend(nav, SelectEvents(area.ok, AreaSay, now));
    var afterArea := nav + SelectEvents(area.ok, AreaSay, now);
    if !area.ok then ActionRun(HttpError(AreaStep.failBody, StatusNotFound), area.page, None, afterArea)
    else
      var course := ForceSelect(area.page, CourseStep.selector, CourseStep.want);
      AllWellFormedAppend(afterArea, SelectEvents(course.ok, CourseSay, now));
      var afterCourse := afterArea + SelectEvents(course.ok, CourseSay, now);
      if !course.ok then ActionRun(HttpError(CourseStep.failBody, StatusNotFound), course.page, None, afterCourse)
      else
        var slot := SlotRun(course.page, SearchingRegularSlot, now);
        AllWellFormedAppend(afterCourse, slot.events);
        slot.(events := afterCourse + slot.events)
  }

  /** Action after its session was found, on the current page `p`; `listing` is the page
      navigating to the lesson list loads (used by code "4" only). */
  function Dispatch(code: string, p: Page, listing: Page, now: int): (r: ActionRun)
    ensures AllWellFormed(r.events)
  {
    CodeStartedTrimmed(code, now);
    ActionMessagesTrimmed(now);
    var start := if code != "" then [Info(CodeStarted(code), now)] else [];
    var run :=
      if code == "1" then SelectRun(p, AreaStep, AreaSay, now)
      else if code == "2" then SelectRun(p, CourseStep, CourseSay, now)
      else if code == "3" then SlotRun(p, SearchingSlot, now)
      else if code == "4" then CompositeRun(listing, now)
      else ActionRun(HttpError(UnknownCode, StatusBadRequest), p, None, []);
    AllWellFormedAppend(start, run.events);
    run.(events := start + run.events)
  }

  /** Login's reply classifies the request: 400 for an unreadable or incomplete form, 403
      exactly when the page settles on the sign-on host, 200 otherwise. The form is filled
      only for complete credentials, and then the first login button is the one clicked. */
  lemma LoginClassifies(payload: Option<Credentials>, p: Page, settledUrl: string, now: int)
    ensures var r := LoginSteps(payload, p, settledUrl, now); var complete := payload.Some? && !MissingField(payload.value);
      && r.resp.Reply?
      && (r.resp.status == StatusBadRequest <==> !complete)
      && (r.resp.status == StatusForbidden <==> complete && HasPrefix(settledUrl, SsoPrefix))
      && (r.resp.status == StatusOK <==> complete && !HasPrefix(settledUrl, SsoPrefix))
      && (r.typed.Some? <==> complete)
      && (complete ==> r.typed == payload && r.clicked == FirstIndex(p.buttons, IsLoginButton))
      && (!complete ==> r.clicked.None?)
  {
  }

  /** What a status subscriber is shown after Login: only the request notice when the body
      could not be read, the error for an incomplete form or a rejected login, and the
      success message on 200. */
  lemma LoginStatusMatchesReply(b: Broker, payload: Option<Credentials>, p: Page, settledUrl: string, now: int)
    requires Inv(b)
    ensures var r := LoginSteps(payload, p, settledUrl, now); var st := RecordAll(b, r.events);
      && st.hasLast
      && (payload.None? ==> st.last == Info(LoginRequested, now))
      && (payload.Some? && MissingField(payload.value) ==> st.last == Error(MissingCredentialsStatus, now))
      && (r.resp.status == StatusForbidden ==> st.last == Error(LoginFailedStatus, now))
      && (r.resp.status == StatusOK ==> st.last == Info(LoginSucceeded, now))
  {
    var r := LoginSteps(payload, p, settledUrl, now);
    RecordAllShowsLast(b, r.events);
    if payload.Some? && !MissingField(payload.value) {
      var clicked := FirstIndex(p.buttons, IsLoginButton).Some?;
      var sub := SubmitEvents(clicked, settledUrl, now);
      SubmitEndsWithVerdict(clicked, settledUrl, now);
      LastOfAppend([Info(LoginRequested, now)], sub);
      assert r.events == [Info(LoginRequested, now)] + sub;
    }
  }

  /** The form submission always ends on its verdict. */
  lemma SubmitEndsWithVerdict(clicked: bool, settledUrl: string, now: int)
    ensures var evs := SubmitEvents(clicked, settledUrl, now);
      evs != [] && evs[|evs| - 1] == if HasPrefix(settledUrl, SsoPrefix) then Error(LoginFailedStatus, now) else Info(LoginSucceeded, now)
  {
  }

  /** Codes "1" and "2": 200 exactly when forceSelect succeeds on their control, 404
      otherwise; the page is what forceSelect left and no link is clicked. */
  lemma SelectCodes(code: string, p: Page, listing: Page, now: int)
    requires code == "1" || code == "2"
    ensures var step := if code == "1" then AreaStep else CourseStep;
      var sel := ForceSelect(p, step.selector, step.want); var r := Dispatch(code, p, listing, now);
      && r.page == sel.page && r.clicked.None?
      && (sel.ok ==> r.resp == Reply(StatusOK, step.okBody))
      && (!sel.ok ==> r.resp == HttpError(step.failBody, StatusNotFound))
  {
  }

  /** Code "3": only the first link containing all three fragments is clicked, and the
      reply is 200 exactly when there is one. The page the click navigates to is not
      represented: `page` stays the page the click was made on. */
  lemma SlotCode(p: Page, listing: Page, now: int)
    ensures var r := Dispatch("3", p, listing, now);
      && r.clicked == FirstIndex(p.registLinks, IsSlotLink) && r.page == p
      && (r.clicked.Some? ==> r.resp == Reply(StatusOK, SlotOkBody) && IsSlotLink(p.registLinks[r.clicked.value]))
      && (r.clicked.None? ==> r.resp == HttpError(SlotMissingBody, StatusNotFound))
  {
  }

  /** Code "4" stops at the first failing selection with 404: a failed area selection never
      announces the course step or the slot search, and a failed course selection never
      searches for a slot. It answers 200 only when all three stages succeed. */
  lemma CompositeStopsAtFirstFailure(p: Page, listing: Page, now: int)
    ensures var r := Dispatch("4", p, listing, now);
      var area := ForceSelect(listing, AreaSelector, AreaWanted);
      var course := ForceSelect(area.page, CourseSelector, CourseWanted);
      && (!area.ok ==>
            && r.resp == HttpError(AreaStep.failBody, StatusNotFound) && r.page == listing && r.clicked.None?
            && Info(CourseSay.announce, now) !in r.events && Info(SearchingRegularSlot, now) !in r.events)
      && (area.ok && !course.ok ==>
            && r.resp == HttpError(CourseStep.failBody, StatusNotFound) && r.page == area.page && r.clicked.None?
            && Info(SearchingRegularSlot, now) !in r.events)
      && (area.ok && course.ok ==>
            r.page == course.page && r.clicked == FirstIndex(course.page.registLinks, IsSlotLink))
      && (r.resp == Reply(StatusOK, SlotOkBody) <==>
            area.ok && course.ok && FirstIndex(course.page.registLinks, IsSlotLink).Some?)
  {
    var c := CompositeRun(listing, now);
    var start := [Info(CodeStarted("4"), now)];
    assert Dispatch("4", p, listing, now) == c.(events := start + c.events);
    var area := ForceSelect(listing, AreaSelector, AreaWanted);
    if !area.ok {
      AreaFailureStops(listing, now);
    } else if !ForceSelect(area.page, CourseSelector, CourseWanted).ok {
      CourseFailureStops(listing, now);
    }
  }

  /** A failed area selection ends code "4" before the course step. */
  lemma AreaFailureStops(listing: Page, now: int)
    requires !ForceSelect(listing, AreaSelector, AreaWanted).ok
    ensures var c := CompositeRun(listing, now);
      && c.events == [Info(Navigating, now)] + [Info(Navigated, now)] + SelectEvents(false, AreaSay, now)
      && c.resp == HttpError(AreaStep.failBody, StatusNotFound) && c.page == listing && c.clicked.None?
  {
  }

  /** A failed course selection ends code "4" before the slot search. */
  lemma CourseFailureStops(listing: Page, now: int)
    requires ForceSelect(listing, AreaSelector, AreaWanted).ok
    requires !ForceSelect(ForceSelect(listing, AreaSelector, AreaWanted).page, CourseSelector, CourseWanted).ok
    ensures var area := ForceSelect(listing, AreaSelector, AreaWanted); var c := CompositeRun(listing, now);
      && c.events == [Info(Navigating, now)] + [Info(Navigated, now)] + SelectEvents(true, AreaSay, now) + SelectEvents(false, CourseSay, now)
      && c.resp == HttpError(CourseStep.failBody, StatusNotFound) && c.page == area.page && c.clicked.None?
  {
  }

  /** Any other code, the empty one included, answers 400 and touches nothing; only a
      non-empty code is announced on the status stream. */
  lemma UnknownCodes(code: string, p: Page, listing: Page, now: int)
    requires code != "1" && code != "2" && code != "3" && code != "4"
    ensures var r := Dispatch(code, p, listing, now);
      && r.resp == HttpError(UnknownCode, StatusBadRequest) && r.page == p && r.clicked.None?
      && r.events == if code == "" then [] else [Info(CodeStarted(code), now)]
  {
  }

  /** For the four known codes, the status a subscriber is shown afterwards is an error
      exactly when the reply is 404. */
  lemma ActionStatusMatchesReply(b: Broker, code: string, p: Page, listing: Page, now: int)
    requires Inv(b) && (code == "1" || code == "2" || code == "3" || code == "4")
    ensures var r := Dispatch(code, p, listing, now); var st := RecordAll(b, r.events);
      st.hasLast && (st.last.level == ErrorLevel <==> r.resp.status == StatusNotFound)
  {
    var r := Dispatch(code, p, listing, now);
    DispatchEndsOnVerdict(code, p, listing, now);
    RecordAllShowsLast(b, r.events);
  }

  /** For the four known codes, the last event Action records is an error exactly when
      the reply is 404. */
  lemma DispatchEndsOnVerdict(code: string, p: Page, listing: Page, now: int)
    requires code == "1" || code == "2" || code == "3" || code == "4"
    ensures var r := Dispatch(code, p, listing, now);
      r.events != [] && (r.events[|r.events| - 1].level == ErrorLevel <==> r.resp.status == StatusNotFound)
  {
    var start := [Info(CodeStarted(code), now)];
    if code == "1" || code == "2" {
      var step := if code == "1" then AreaStep else CourseStep;
      var say := if code == "1" then AreaSay else CourseSay;
      var run := SelectRun(p, step, say, now);
      assert Dispatch(code, p, listing, now) == run.(events := start + run.events);
      LastOfAppend(start, run.events);
    } else if code == "3" {
      var run := SlotRun(p, SearchingSlot, now);
      assert Dispatch(code, p, listing, now) == run.(events := start + run.events);
      LastOfAppend(start, run.events);
    } else {
      var run := CompositeRun(listing, now);
      assert Dispatch(code, p, listing, now) == run.(events := start + run.events);
      CompositeStatusMatchesReply(listing, now);
      LastOfAppend(start, run.events);
    }
  }

  /** Code "4" alone: its last event is an error exactly when it answers 404. */
  lemma CompositeStatusMatchesReply(listing: Page, now: int)
    ensures var c := CompositeRun(listing, now);
      c.events != [] && (c.events[|c.events| - 1].level == ErrorLevel <==> c.resp.status == StatusNotFound)
  {
    var nav := [Info(Navigating, now)] + [Info(Navigated, now)];
    var area := ForceSelect(listing, AreaStep.selector, AreaStep.want);
    var afterArea := nav + SelectEvents(area.ok, AreaSay, now);
    LastOfAppend(nav, SelectEvents(area.ok, AreaSay, now));
    if area.ok {
      var course := ForceSelect(area.page, CourseStep.selector, CourseStep.want);
      var afterCourse := afterArea + SelectEvents(course.ok, CourseSay, now);
      LastOfAppend(afterArea, SelectEvents(course.ok, CourseSay, now));
      if course.ok {
        LastOfAppend(afterCourse, SlotRun(course.page, SearchingRegularSlot, now).events);
      }
    }
  }

  lemma LastOfAppend<T>(xs: seq<T>, ys: seq<T>)
    requires ys != []
    ensures (xs + ys)[|xs + ys| - 1] == ys[|ys| - 1]
  {
  }

  /** pushInfo / pushError of a fixed, already trimmed message on `s`, tracked as one more
      recorded event replayed from `start`. */
  method Say(s: Session, ev: StatusEvent, ghost start: Broker, ghost log: seq<StatusEvent>)
    returns (ghost log': seq<StatusEvent>)
    requires s.Valid() && WellFormed(ev) && Inv(start) && AllWellFormed(log) && s.Status() == RecordAll(start, log)
    modifies s`lastStatus, s`hasLastStatus, s`channels
    ensures s.Valid() && log' == log + [ev] && AllWellFormed(log') && s.Status() == RecordAll(start, log')
  {
    PushTrimmed(s.Status(), ev.level, ev.message, ev.at);
    s.PushStatus(ev.level, ev.message, ev.at);
    RecordAllSnoc(start, log, ev);
    log' := log + [ev];
  }

  /** Several fixed pushes in a row, recorded in order. */
  method SayAll(s: Session, evs: seq<StatusEvent>)
    requires s.Valid() && AllWellFormed(evs)
    modifies s`lastStatus, s`hasLastStatus, s`channels
    ensures s.Valid() && s.Status() == RecordAll(old(s.Status()), evs)
  {
    ghost var start := s.Status();
    ghost var log: seq<StatusEvent> := [];
    for i := 0 to |evs|
      invariant s.Valid() && log == evs[..i] && AllWellFormed(log) && s.Status() == RecordAll(start, log)
    {
      log := Say(s, evs[i], start, log);
    }
    assert evs[..|evs|] == evs;
  }

  /** The events of typing the credentials and pressing the login button. */
  function Typing(now: int): (evs: seq<StatusEvent>)
    ensures AllWellFormed(evs)
  {
    [Info(FindingId, now), Info(TypedId, now), Info(FindingPassword, now), Info(TypedPassword, now), Info(ClickingLogin, now)]
  }

  /** The events of submitting the form: typing, the click if a login button was found,
      the wait, and the verdict on the settled address. */
  function SubmitEvents(clicked: bool, settledUrl: string, now: int): (evs: seq<StatusEvent>)
    ensures AllWellFormed(evs)
  {
    LoginMessagesTrimmed(now);
    var typing := Typing(now);
    var clicking := if clicked then typing + [Info(ClickedLogin, now)] else typing;
    var waited := clicking + [Info(CheckingLogin, now)];
    if HasPrefix(settledUrl, SsoPrefix) then waited + [Error(LoginFailedStatus, now)]
    else waited + [Info(LoginSucceeded, now)]
  }

  /** The part of Login that holds the session lock: fill the form, click the first
      login button, and judge the address the page settles on. */
  method SubmitLogin(s: Session, p: Page, settledUrl: string, now: int)
    returns (resp: Response, clicked: Option<nat>)
    requires s.Valid()
    modifies s`lastStatus, s`hasLastStatus, s`channels
    ensures clicked == FirstIndex(p.buttons, IsLoginButton)
    ensures s.Valid() && AllWellFormed(SubmitEvents(clicked.Some?, settledUrl, now))
    ensures s.Status() == RecordAll(old(s.Status()), SubmitEvents(clicked.Some?, settledUrl, now))
    ensures resp == if HasPrefix(settledUrl, SsoPrefix) then HttpError(LoginFailedReply, StatusForbidden) else Reply(StatusOK, LoginDone)
  {
    LoginMessagesTrimmed(now);
    ghost var start := s.Status();
    SayAll(s, Typing(now));
    ghost var log := Typing(now);
    clicked := ClickFirst(p.buttons, IsLoginButton);
    if clicked.Some? {
      log := Say(s, Info(ClickedLogin, now), start, log);
    }
    log := Say(s, Info(CheckingLogin, now), start, log);
    if HasPrefix(settledUrl, SsoPrefix) {
      log := Say(s, Error(LoginFailedStatus, now), start, log);
      resp := HttpError(LoginFailedReply, StatusForbidden);
    } else {
      log := Say(s, Info(LoginSucceeded, now), start, log);
      resp := Reply(StatusOK, LoginDone);
    }
  }

  /** Login from the session lookup on, on the session `s` it found: the request notice,
      then an unreadable body answers 400, an incomplete form records its error and
      answers 400, and a complete form is submitted. LoginOnSessionFollowsSteps shows
      that this is what LoginSteps says. */
  method LoginOnSession(s: Session, payload: Option<Credentials>, p: Page, settledUrl: string, now: int)
    returns (resp: Response, typed: Option<Credentials>, clicked: Option<nat>)
    requires s.Valid()
    modifies s`lastStatus, s`hasLastStatus, s`channels
    ensures s.Valid()
    ensures (LoginMessagesTrimmed(now); payload.None? ==>
      && resp == HttpError(ParseFailed, StatusBadRequest) && typed.None? && clicked.None?
      && s.Status() == Record(old(s.Status()), Info(LoginRequested, now)))
    ensures (LoginMessagesTrimmed(now); payload.Some? && MissingField(payload.value) ==>
      && resp == HttpError(MissingCredentialsReply, StatusBadRequest) && typed.None? && clicked.None?
      && s.Status() == Record(Record(old(s.Status()), Info(LoginRequested, now)), Error(MissingCredentialsStatus, now)))
    ensures (LoginMessagesTrimmed(now); payload.Some? && !MissingField(payload.value) ==>
      && typed == payload && clicked == FirstIndex(p.buttons, IsLoginButton)
      && resp == (if HasPrefix(settledUrl, SsoPrefix) then HttpError(LoginFailedReply, StatusForbidden) else Reply(StatusOK, LoginDone))
      && s.Status() == RecordAll(Record(old(s.Status()), Info(LoginRequested, now)), SubmitEvents(clicked.Some?, settledUrl, now)))
  {
    LoginMessagesTrimmed(now);
    Say1(s, Info(LoginRequested, now));
    if payload.None? {
      return HttpError(ParseFailed, StatusBadRequest), None, None;
    }
    var c := payload.value;
    if MissingField(c) {
      Say1(s, Error(MissingCredentialsStatus, now));
      return HttpError(MissingCredentialsReply, StatusBadRequest), None, None;
    }
    typed := Some(c);
    resp, clicked := SubmitLogin(s, p, settledUrl, now);
  }

  /** The three outcomes LoginOnSession states are LoginSteps' outcomes, with the status
      advanced by exactly LoginSteps' events. */
  lemma LoginOnSessionFollowsSteps(b: Broker, payload: Option<Credentials>, p: Page, settledUrl: string, now: int)
    requires Inv(b)
    ensures (LoginMessagesTrimmed(now); var run := LoginSteps(payload, p, settledUrl, now); var head := Info(LoginRequested, now);
      && (payload.None? ==>
            run == LoginRun(HttpError(ParseFailed, StatusBadRequest), None, None, [head])
            && RecordAll(b, run.events) == Record(b, head))
      && (payload.Some? && MissingField(payload.value) ==>
            run == LoginRun(HttpError(MissingCredentialsReply, StatusBadRequest), None, None, [head] + [Error(MissingCredentialsStatus, now)])
            && RecordAll(b, run.events) == Record(Record(b, head), Error(MissingCredentialsStatus, now)))
      && (payload.Some? && !MissingField(payload.value) ==>
            var clicked := FirstIndex(p.buttons, IsLoginButton);
            && run.typed == payload && run.clicked == clicked
            && run.resp == (if HasPrefix(settledUrl, SsoPrefix) then HttpError(LoginFailedReply, StatusForbidden) else Reply(StatusOK, LoginDone))
            && RecordAll(b, run.events) == RecordAll(Record(b, head), SubmitEvents(clicked.Some?, settledUrl, now))))
  {
    LoginMessagesTrimmed(now);
    var run := LoginSteps(payload, p, settledUrl, now);
    var head := Info(LoginRequested, now);
    RecordAllSnoc(b, [], head);
    assert [] + [head] == [head];
    if payload.Some? {
      if MissingField(payload.value) {
        RecordAllSnoc(b, [head], Error(MissingCredentialsStatus, now));
      } else {
        var sub := SubmitEvents(FirstIndex(p.buttons, IsLoginButton).Some?, settledUrl, now);
        RecordAllAppend(b, [head], sub);
        RecordAllAppend(Record(b, head), [], sub);
      }
    }
  }

  /** One fixed push, as one recorded event. */
  method Say1(s: Session, ev: StatusEvent)
    requires s.Valid() && WellFormed(ev)
    modifies s`lastStatus, s`hasLastStatus, s`channels
    ensures s.Valid() && s.Status() == Record(old(s.Status()), ev)
  {
    PushTrimmed(s.Status(), ev.level, ev.message, ev.at);
    s.PushStatus(ev.level, ev.message, ev.at);
  }

  /** requireSession: the cookie's session, touched, or the 400 reply. */
  method RequireSession(reg: Registry, cookie: Option<string>, now: int) returns (s: Session?, resp: Response)
    requires reg.Valid()
    modifies reg.CookieEntry(cookie)
    ensures reg.Valid() && reg.sessions == old(reg.sessions)
    ensures s != null <==> reg.Knows(cookie)
    ensures s == null ==> resp == HttpError(NoSession, StatusBadRequest)
    ensures s != null ==>
      && s == reg.Named(cookie) && s.Valid() && s.lastActive == now
      && s.Status() == old(s.Status()) && s.createdAt == old(s.createdAt)
      && s.browser == old(s.browser) && s.page == old(s.page)
  {
    var id, found, ok := reg.GetSessionFromRequest(cookie, now);
    if !ok {
      return null, HttpError(NoSession, StatusBadRequest);
    }
    s, resp := found, Unwritten;
  }

  /** Login: 405 for anything but POST, 400 without a session; otherwise exactly what
      LoginSteps says, with the session's status advanced by its events. `payload` is the
      decoded body, None when decoding failed. */
  method Login(reg: Registry, isPost: bool, cookie: Option<string>, payload: Option<Credentials>,
               p: Page, settledUrl: string, now: int)
    returns (resp: Response, typed: Option<Credentials>, clicked: Option<nat>)
    requires reg.Valid()
    modifies reg.CookieEntry(cookie)
    ensures reg.Valid() && reg.sessions == old(reg.sessions)
    ensures !isPost ==> resp == HttpError(MethodOnly, StatusMethodNotAllowed) && typed.None? && clicked.None?
    ensures !isPost ==> unchanged(reg.CookieEntry(cookie))
    ensures isPost && !reg.Knows(cookie) ==> resp == HttpError(NoSession, StatusBadRequest) && typed.None? && clicked.None?
    ensures isPost && reg.Knows(cookie) ==>
      var run := LoginSteps(payload, p, settledUrl, now); var s := reg.Named(cookie);
      && resp == run.resp && typed == run.typed && clicked == run.clicked
      && AllWellFormed(run.events) && s.Status() == RecordAll(old(s.Status()), run.events)
      && s.lastActive == now && s.createdAt == old(s.createdAt)
      && s.browser == old(s.browser) && s.page == old(s.page)
  {
    if !isPost {
      return HttpError(MethodOnly, StatusMethodNotAllowed), None, None;
    }
    var s;
    s, resp := RequireSession(reg, cookie, now);
    if s == null {
      return resp, None, None;
    }
    ghost var before := s.Status();
    resp, typed, clicked := LoginOnSession(s, payload, p, settledUrl, now);
    LoginOnSessionFollowsSteps(before, payload, p, settledUrl, now);
  }

  /** One selection step under the session lock: announce it, run forceSelect, and
      report success or failure on the status stream. */
  method SelectStep(s: Session, p: Page, step: Step, say: Narration, now: int) returns (sel: Selection)
    requires s.Valid() && (say == AreaSay || say == CourseSay)
    modifies s`lastStatus, s`hasLastStatus, s`channels
    ensures sel == ForceSelect(p, step.selector, step.want)
    ensures s.Valid() && AllWellFormed(SelectEvents(sel.ok, say, now))
    ensures s.Status() == RecordAll(old(s.Status()), SelectEvents(sel.ok, say, now))
  {
    ActionMessagesTrimmed(now);
    ghost var start := s.Status();
    ghost var log: seq<StatusEvent> := [];
    log := Say(s, Info(say.announce, now), start, log);
    sel := ForceSelect(p, step.selector, step.want);
    if sel.ok {
      log := Say(s, Info(say.done, now), start, log);
    } else {
      log := Say(s, Error(say.failed, now), start, log);
    }
  }

  /** The reservation-link search under the session lock: announce it, click the first
      qualifying link, and report the outcome on the status stream. */
  method SlotStep(s: Session, p: Page, searching: string, now: int) returns (clicked: Option<nat>)
    requires s.Valid() && (searching == SearchingSlot || searching == SearchingRegularSlot)
    modifies s`lastStatus, s`hasLastStatus, s`channels
    ensures clicked == FirstIndex(p.registLinks, IsSlotLink)
    ensures s.Valid() && AllWellFormed(SlotEvents(clicked.Some?, searching, now))
    ensures s.Status() == RecordAll(old(s.Status()), SlotEvents(clicked.Some?, searching, now))
  {
    ActionMessagesTrimmed(now);
    ghost var start := s.Status();
    ghost var log: seq<StatusEvent> := [];
    log := Say(s, Info(searching, now), start, log);
    clicked := ClickFirst(p.registLinks, IsSlotLink);
    if clicked.Some? {
      log := Say(s, Info(SlotDone, now), start, log);
    } else {
      log := Say(s, Error(SlotFailed, now), start, log);
    }
  }

  /** Code "4": navigate to the lesson list (which loads `listing`), then area, course and
      slot, returning at the first failure. */
  method CompositeStep(s: Session, listing: Page, now: int) returns (resp: Response, after: Page, clicked: Option<nat>)
    requires s.Valid()
    modifies s`lastStatus, s`hasLastStatus, s`channels
    ensures var run := CompositeRun(listing, now);
      && resp == run.resp && after == run.page && clicked == run.clicked
      && s.Valid() && AllWellFormed(run.events) && s.Status() == RecordAll(old(s.Status()), run.events)
  {
    ActionMessagesTrimmed(now);
    ghost var start := s.Status();
    ghost var log: seq<StatusEvent> := [];
    log := Say(s, Info(Navigating, now), start, log);
    after := listing;
    log := Say(s, Info(Navigated, now), start, log);
    clicked := None;
    var area := SelectStep(s, after, AreaStep, AreaSay, now);
    RecordAllAppend(start, log, SelectEvents(area.ok, AreaSay, now));
    log := log + SelectEvents(area.ok, AreaSay, now);
    after := area.page;
    if !area.ok {
      resp := HttpError(AreaStep.failBody, StatusNotFound);
      return;
    }
    var course := SelectStep(s, after, CourseStep, CourseSay, now);
    RecordAllAppend(start, log, SelectEvents(course.ok, CourseSay, now));
    log := log + SelectEvents(course.ok, CourseSay, now);
    after := course.page;
    if !course.ok {
      resp := HttpError(CourseStep.failBody, StatusNotFound);
      return;
    }
    clicked := SlotStep(s, after, SearchingRegularSlot, now);
    RecordAllAppend(start, log, SlotEvents(clicked.Some?, SearchingRegularSlot, now));
    log := log + SlotEvents(clicked.Some?, SearchingRegularSlot, now);
    resp := if clicked.Some? then Reply(StatusOK, SlotOkBody) else HttpError(SlotMissingBody, StatusNotFound);
  }

  /** Action from the session lookup on, on the session `s` it found. */
  method ActionOnSession(s: Session, code: string, p: Page, listing: Page, now: int)
    returns (resp: Response, after: Page, clicked: Option<nat>)
    requires s.Valid()
    modifies s`lastStatus, s`hasLastStatus, s`channels
    ensures var run := Dispatch(code, p, listing, now);
      && resp == run.resp && after == run.page && clicked == run.clicked
      && s.Valid() && AllWellFormed(run.events) && s.Status() == RecordAll(old(s.Status()), run.events)
  {
    ghost var start := s.Status();
    ghost var log: seq<StatusEvent> := [];
    if code != "" {
      CodeStartedTrimmed(code, now);
      log := Say(s, Info(CodeStarted(code), now), start, log);
    }
    after, clicked := p, None;
    ghost var rest: seq<StatusEvent>;
    if code == "1" || code == "2" {
      var step, say := if code == "1" then AreaStep else CourseStep, if code == "1" then AreaSay else CourseSay;
      var sel := SelectStep(s, p, step, say, now);
      rest := SelectEvents(sel.ok, say, now);
      after := sel.page;
      resp := if sel.ok then Reply(StatusOK, step.okBody) else HttpError(step.failBody, StatusNotFound);
    } else if code == "3" {
      clicked := SlotStep(s, p, SearchingSlot, now);
      rest := SlotEvents(clicked.Some?, SearchingSlot, now);
      resp := if clicked.Some? then Reply(StatusOK, SlotOkBody) else HttpError(SlotMissingBody, StatusNotFound);
    } else if code == "4" {
      resp, after, clicked := CompositeStep(s, listing, now);
      rest := CompositeRun(listing, now).events;
    } else {
      rest := [];
      resp := HttpError(UnknownCode, StatusBadRequest);
    }
    RecordAllAppend(start, log, rest);
  }

  /** Action: 400 without a session; otherwise exactly what Dispatch says, with the
      session's status advanced by its events. `code` is the query's "code" value ("" when
      absent); `listing` is what navigating to the lesson list loads. */
  method Action(reg: Registry, cookie: Option<string>, code: string, p: Page, listing: Page, now: int)
    returns (resp: Response, after: Page, clicked: Option<nat>)
    requires reg.Valid()
    modifies reg.CookieEntry(cookie)
    ensures reg.Valid() && reg.sessions == old(reg.sessions)
    ensures !reg.Knows(cookie) ==> resp == HttpError(NoSession, StatusBadRequest) && after == p && clicked.None?
    ensures reg.Knows(cookie) ==>
      var run := Dispatch(code, p, listing, now); var s := reg.Named(cookie);
      && resp == run.resp && after == run.page && clicked == run.clicked
      && s.Status() == RecordAll(old(s.Status()), run.events)
      && s.lastActive == now && s.createdAt == old(s.createdAt)
      && s.browser == old(s.browser) && s.page == old(s.page)
  {
    var s;
    s, resp := RequireSession(reg, cookie, now);
    if s == null {
      return resp, p, None;
    }
    resp, after, clicked := ActionOnSession(s, code, p, listing, now);
  }
}
