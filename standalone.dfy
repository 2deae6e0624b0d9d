/** The stand-alone Action handler of the desktop client (client/app.go; action/app.go is
    the same code). It attaches to a Chrome the user started, works on the first open tab,
    and answers with a plain status and body. Attaching (the /json/version lookup and the
    DevTools connection) is driver work; the tabs it finds are a parameter here. */
module Standalone {
  import opened Common
  import opened Text
  import opened Dom
  import Server

  const NoTabs: string := "탭이 존재하지 않습니다."
  const NotOnListing: string := "강습 신청 페이지로 진입해주세요!"

  /** What Action leaves behind: the reply, the tabs afterwards, and the link it clicked. */
  datatype TabRun = TabRun(resp: Response, tabs: seq<Page>, clicked: Option<nat>)

  /** One selection code on the first tab; the body is written as is, with no newline. */
  function SelectOnTab(tabs: seq<Page>, step: Step): (r: TabRun)
    requires |tabs| > 0
  {
    var sel := ForceSelect(tabs[0], step.selector, step.want);
    TabRun(if sel.ok then Reply(StatusOK, step.okBody) else Reply(StatusNotFound, step.failBody),
           tabs[0 := sel.page], None)
  }

  /** The reply Action gives for `code` when the browser has the tabs `tabs`, in order. */
  function Outcome(code: string, tabs: seq<Page>): (r: TabRun)
    ensures |r.tabs| == |tabs| && forall i :: 1 <= i < |tabs| ==> r.tabs[i] == tabs[i]
  {
    if |tabs| == 0 then TabRun(Reply(StatusInternalServerError, NoTabs), tabs, None)
    else if !HasPrefix(tabs[0].url, ListingUrl) then TabRun(Reply(StatusBadRequest, NotOnListing), tabs, None)
    else if code == "1" then SelectOnTab(tabs, AreaStep)
    else if code == "2" then SelectOnTab(tabs, CourseStep)
    else if code == "3" then
      var clicked := FirstIndex(tabs[0].registLinks, IsSlotLink);
      TabRun(if clicked.Some? then Reply(StatusOK, SlotOkBody) else Reply(StatusNotFound, SlotMissingBody), tabs, clicked)
    else TabRun(Unwritten, tabs, None)
  }

  /** Action(w, r) with `code` its query parameter and `tabs` the browser's pages. */
  method Action(code: string, tabs: seq<Page>) returns (resp: Response, after: seq<Page>, clicked: Option<nat>)
    ensures TabRun(resp, after, clicked) == Outcome(code, tabs)
  {
    after, clicked := tabs, None;
    if |tabs| == 0 {
      return Reply(StatusInternalServerError, NoTabs), after, clicked;
    }
    var page := tabs[0];
    if !HasPrefix(page.url, ListingUrl) {
      return Reply(StatusBadRequest, NotOnListing), after, clicked;
    }
    if code == "1" || code == "2" {
      var step := if code == "1" then AreaStep else CourseStep;
      var sel := ForceSelect(page, step.selector, step.want);
      after := tabs[0 := sel.page];
      resp := if sel.ok then Reply(StatusOK, step.okBody) else Reply(StatusNotFound, step.failBody);
    } else if code == "3" {
      clicked := ClickFirst(page.registLinks, IsSlotLink);
      resp := if clicked.Some? then Reply(StatusOK, SlotOkBody) else Reply(StatusNotFound, SlotMissingBody);
    } else {
      resp := Unwritten;
    }
  }

  /** The tab gate: no tab answers 500 and a first tab off the lesson list answers 400,
      both before any code is looked at and with every tab left as it was. Past the gate
      only the first tab may change. */
  lemma TabGate(code: string, tabs: seq<Page>)
    ensures var r := Outcome(code, tabs);
      && (|tabs| == 0 ==> r.resp == Reply(StatusInternalServerError, NoTabs))
      && (|tabs| > 0 && !HasPrefix(tabs[0].url, ListingUrl) ==> r.resp == Reply(StatusBadRequest, NotOnListing))
      && (r.resp.Reply? && r.resp.status in {StatusInternalServerError, StatusBadRequest} ==> r.tabs == tabs && r.clicked.None?)
      && (r.resp.Reply? && r.resp.status == StatusBadRequest ==> |tabs| > 0 && !HasPrefix(tabs[0].url, ListingUrl))
  {
  }

  /** Codes "1" to "3" on the lesson list do what the server's Action does on that page:
      the same status, the same page afterwards and the same link clicked; the bodies
      differ only in the newline the server's http.Error appends on failure. */
  lemma AgreesWithServer(code: string, tabs: seq<Page>, listing: Page, now: int)
    requires code == "1" || code == "2" || code == "3"
    requires |tabs| > 0 && HasPrefix(tabs[0].url, ListingUrl)
    ensures var r := Outcome(code, tabs); var s := Server.Dispatch(code, tabs[0], listing, now);
      && r.resp.Reply? && s.resp.Reply?
      && r.resp.status == s.resp.status
      && r.tabs[0] == s.page && r.clicked == s.clicked
      && (r.resp.status == StatusOK ==> r.resp.body == s.resp.body)
      && (r.resp.status == StatusNotFound ==> r.resp.body + "\n" == s.resp.body)
  {
  }

  /** Any other code on the lesson list writes nothing and touches nothing, where the
      server answers 400 for a code other than "4" and runs the composite step for "4". */
  lemma UnknownCodeWritesNothing(code: string, tabs: seq<Page>, listing: Page, now: int)
    requires code != "1" && code != "2" && code != "3"
    requires |tabs| > 0 && HasPrefix(tabs[0].url, ListingUrl)
    ensures Outcome(code, tabs) == TabRun(Unwritten, tabs, None)
    ensures code != "4" ==> Server.Dispatch(code, tabs[0], listing, now).resp.status == StatusBadRequest
  {
  }
}
