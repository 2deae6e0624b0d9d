# squash-helper, modelled in Dafny

squash-helper drives a Chrome browser to book a squash lesson at the Hogye community
centre's reservation site. The model covers the parts of it that hold state or make
decisions:

- The web server (`server/app.go`, `server/launch.go`) keeps one browser session per
  user in a registry keyed by an opaque cookie id. Each session carries a small status
  broker that caches the last status event and forwards it to at most one subscriber
  over a channel with a buffer of 16. `Launch` replaces the caller's session with a new
  one. `Login` fills the sign-in form. `Action` runs the booking steps by code: "1" picks
  the lesson area, "2" the course, "3" clicks the matching reservation link, and "4" runs
  all three on a freshly loaded lesson list. A reaper evicts sessions that have been idle
  for more than an hour.
- The desktop client (`client/app.go`) has a stand-alone `Action`. `action/app.go` holds
  the same `Action` and `forceSelect`, without the client's `Run` and `openBrowser`. It attaches to a Chrome the user started and runs codes "1" to "3"
  on the first tab.

Modules:

- `Common`: Option, Result, HTTP replies, and `http.Error`, which appends a newline.
- `Text`: Go's `strings.TrimSpace` (Unicode White_Space), JavaScript's `trim`, `HasPrefix`
  and `Contains`.
- `Hex`: `hex.EncodeToString` and its inverse.
- `StatusBroker`: the status broker as a state machine over values. A Go channel becomes
  a generation number with a bounded buffer and a closed flag. Sending on or closing a
  closed channel panics in Go; here both are preconditions, and the broker invariant
  shows they are never violated.
- `Sessions`: `class Session`, whose fields are those of `userSession` without the two
  mutexes, with the status channel modelled as in `StatusBroker`, and
  `class Registry`, which holds the session map. The methods of both are proved against
  the `StatusBroker` functions.
- `Dom`: the parts of a page the automation reads. `forceSelect` is a function. The
  first-match loop over elements is a method with a loop invariant.
- `Server`: `Login` and `Action`. Each handler is specified by a function (`LoginSteps`,
  `Dispatch`) that gives the reply, the element clicked and the status events, in order.
  Each handler method is proved to record exactly those events on its session.
- `Launch`: the `Launch` handler and the login-dialog answers.
- `Standalone`: the desktop client's `Action`.

Time is an integer count of nanoseconds. Go's zero time is 0, and the one-hour TTL is
3 600 000 000 000. The current time, the random bytes for a session id, the pages the
browser reports and the address a page settles on are all parameters.

## Model

| member | source | states |
|---|---|---|
| Text.Trim | server/app.go:57-65 | the result is no longer than the input, starts and ends with a non-space, and is empty exactly when every character is white space |
| Text.TrimCutsEnds | server/app.go:57-65 | the result is the input with a run of leading and a run of trailing white space cut off, the part between kept as is |
| Text.TrimmedIsFixpoint | server/app.go:57-65 | trimming a string that is already trimmed returns it unchanged |
| Text.TrimIdempotent | server/app.go:57-65 | trimming twice is trimming once |
| Hex.EncodeHex | server/app.go:163-169 | two lower-case hex digits per byte |
| Hex.DecodeEncode | server/app.go:163-169 | decoding the hex encoding gives back the bytes |
| Hex.EncodeInjective | server/app.go:163-169 | different byte strings have different ids |
| StatusBroker.NormalizeLevel | server/app.go:57-60 | a blank level becomes "info"; any other level is trimmed; the result is non-empty and trimmed |
| StatusBroker.MakeEvent | server/app.go:62-71 | no event exactly when the message is blank; otherwise a well-formed event carrying the trimmed message, the normalised level and the time |
| StatusBroker.Push | server/app.go:52-83 | pushStatus keeps the broker invariant |
| StatusBroker.Record | server/app.go:73-82 | caching an event and offering it to the current channel keeps the broker invariant |
| StatusBroker.PushTrimmed | server/app.go:57-65 | a push whose level and message are already trimmed records that event unchanged |
| StatusBroker.PushRecords | server/app.go:52-83 | a blank message changes nothing; otherwise the trimmed event becomes the cached last status |
| StatusBroker.PushOffers | server/app.go:73-82 | a push with a non-blank message appends its event to the current channel's buffer while the buffer has room; a blank push or a full buffer leaves the buffer as it was |
| StatusBroker.PushCaches | server/app.go:73-75 | a blank push keeps the cached status; any other push caches its event |
| StatusBroker.PushDelivers | server/app.go:73-82 | the event goes only to the current channel, and only if its buffer has room; otherwise it is dropped. No channel opens or closes, the subscriber stays the same, and every other channel is untouched |
| StatusBroker.Subscribe | server/app.go:93-109 | the previous channel is closed; a fresh empty channel with a new generation becomes current; the backlog is the cached last event if there is one |
| StatusBroker.Unsubscribe | server/app.go:111-118 | the cleanup closure closes and clears the channel only while it is still current; for a stale generation it changes nothing |
| StatusBroker.CloseChannel | server/app.go:123-134 | afterwards no channel is open and there is no subscriber; buffers and the cached event are unchanged; with no subscriber it is a no-op |
| StatusBroker.Receive | server/app.go:567 | a receive returns the buffered events in order, even after close; a closed, empty channel reports ok == false; other channels are untouched |
| StatusBroker.PushAll | server/app.go:52-83 | any sequence of pushes keeps the invariant, the subscriber and the set of channels |
| StatusBroker.PushAllFrame | server/app.go:73-82 | pushes never touch a channel other than the current one |
| StatusBroker.PushAllSnoc | server/app.go:52-83 | one more push extends a replay by one step |
| StatusBroker.PushAllAppend | server/app.go:52-83 | replaying two batches of pushes one after the other is replaying their concatenation |
| StatusBroker.LastPostShown | server/app.go:73-75 | when the last push is already trimmed, it is the cached status afterwards |
| StatusBroker.RecordAll | server/app.go:73-82 | recording well-formed events keeps the invariant, the subscriber and the set of channels |
| StatusBroker.RecordAllAppend | server/app.go:73-82 | recording two batches of events one after the other is recording their concatenation |
| StatusBroker.RecordAllShowsLast | server/app.go:73-75 | after recording events, the last of them is the cached status |
| StatusBroker.PushAllOfNormalised | server/app.go:52-83 | pushing messages that are already normalised is recording exactly those events |
| StatusBroker.LastIsLatest | server/app.go:73-75 | after any pushes, the cached status is the last non-blank event, or the earlier cache if every message was blank |
| StatusBroker.BacklogIsLatest | server/app.go:105-108 | a subscriber arriving after any pushes is handed exactly the most recent recorded event |
| StatusBroker.CurrentChannelFills | server/app.go:76-81 | an undrained current channel holds the first 16 recorded events in order; later events are dropped |
| StatusBroker.UndrainedSubscriberGetsFirstEvents | server/app.go:93-121 | a new subscriber that is never drained receives the first 16 events pushed after it subscribed |
| StatusBroker.SecondSubscriptionIsolatesFirst | server/app.go:99-118 | after a second subscription the first channel is closed and empty and stays so through any pushes; the first subscriber's cleanup leaves the second untouched |
| Sessions.ClosedEvent | server/app.go:213 | the closing notice is a well-formed info event |
| Sessions.TeardownCachesClosing | server/app.go:213-214 | after the teardown the closing notice is the cached status, there is no subscriber and every channel is closed |
| Sessions.Session.constructor | server/launch.go:28 | the new session holds both handles, zero times and an empty broker |
| Sessions.Session.PushStatus | server/app.go:52-83 | the session's status fields advance as Push says |
| Sessions.Session.PushInfo | server/app.go:85-87 | pushStatus at level "info" |
| Sessions.Session.PushError | server/app.go:89-91 | pushStatus at level "error" |
| Sessions.Session.SubscribeStatus | server/app.go:93-121 | the status fields become Subscribe's new state; the generation and backlog are Subscribe's |
| Sessions.Session.ReleaseSubscription | server/app.go:111-118 | the cleanup closure for a generation: the status fields become Unsubscribe's result |
| Sessions.Session.CloseStatusChannel | server/app.go:123-134 | the status fields become CloseChannel's result |
| Sessions.Session.Receive | server/app.go:567 | a receive on a handed-out channel, as StatusBroker.Receive says |
| Sessions.Session.ReleaseHandles | server/app.go:203-211 | returns the browser to close and clears both handles |
| Sessions.Session.Teardown | server/app.go:203-214 | handles cleared; the closing notice is recorded, then the channel is closed |
| Sessions.Session.Touch | server/app.go:238-240 | lastActive becomes now |
| Sessions.GenerateSessionID | server/app.go:163-169 | fails exactly when the random read fails; otherwise 32 lower-case hex digits that decode back to the 16 random bytes |
| Sessions.Registry.constructor | server/app.go:49 | the registry starts empty |
| Sessions.Registry.RegisterSession | server/app.go:171-189 | on a failed id nothing changes; otherwise the session is stored under the new id, lastActive is set, createdAt is set only if it was zero, and the status is untouched; the registry still holds no session under two ids |
| Sessions.Registry.CleanupSession | server/app.go:191-215 | the entry is removed. A non-nil session has its browser closed and both handles cleared, records the closing notice, then closes its channel, with its activity stamps kept. A missing id closes nothing, so a second call is harmless |
| Sessions.Registry.GetSessionFromRequest | server/app.go:227-248 | hits exactly when the cookie names a non-nil session, and then touches only its lastActive; the id is the cookie's value; the map is unchanged |
| Sessions.Registry.ExpiredIds | server/app.go:264-281 | lists each id whose session is nil or idle for longer than the TTL, each exactly once |
| Sessions.Registry.EvictAll | server/app.go:283-286 | removes exactly the listed ids; each non-nil session among them is torn down as cleanupSession does (handles cleared, closing notice recorded, channel closed), and the browser closed for each id is that session's; every session kept is unchanged |
| Sessions.Registry.Reap | server/app.go:263-287 | one reaper tick lists each stale id once, removes exactly those entries and leaves no stale entry; each evicted session is torn down once and its browser closed; every session kept is unchanged |
| Dom.FirstIndex | server/app.go:434-449 | the index of the first element that qualifies; none exactly when no element qualifies |
| Dom.ChooseOption | server/app.go:627-643 | the chosen option is one of the control's options |
| Dom.ChoiceMeetsSelector | server/app.go:627-643 | an option is chosen exactly when one matches by value or by trimmed label; a value match always wins; otherwise the first label match is chosen |
| Dom.ForceSelect | server/app.go:621-647 | on failure the page is unchanged; the address, buttons and reservation links never change |
| Dom.ForceSelectMeetsSelector | server/app.go:621-647 | succeeds exactly when the control exists and has a value or label match. Only that control's value changes, and its options stay the same. A value match sets the value to want; otherwise the value becomes that of the first label match |
| Dom.ForceSelectIdempotent | server/app.go:621-647 | selecting the same option twice is selecting it once |
| Dom.ValueBeatsLabel | server/app.go:627-643 | whenever some option's value is want, forceSelect succeeds and sets want, even when an earlier option's label matches |
| Dom.ClickFirst | server/app.go:434-449 | the loop stops at the first qualifying element, as FirstIndex says |
| Server.LoginSteps | server/app.go:301-363 | every status event Login records is well-formed |
| Server.SelectEvents | server/app.go:405-416 | the events of one selection step are well-formed |
| Server.SlotEvents | server/app.go:431-454 | the events of the link search are well-formed |
| Server.SelectRun | server/app.go:404-416 | the events of codes "1" and "2" are well-formed |
| Server.SlotRun | server/app.go:430-454 | the events of code "3" are well-formed |
| Server.CompositeRun | server/app.go:455-513 | the events of code "4" are well-formed |
| Server.Dispatch | server/app.go:398-516 | the events of every code are well-formed |
| Server.LoginClassifies | server/app.go:309-363 | 400 exactly for an unreadable or incomplete form, 403 exactly when the page settles on the sign-on host, 200 otherwise; credentials are typed and the first login button clicked only for a complete form |
| Server.LoginStatusMatchesReply | server/app.go:301-361 | afterwards the cached status is the request notice (unreadable body), the missing-field error, the rejection error (403) or the success notice (200) |
| Server.SubmitEndsWithVerdict | server/app.go:350-361 | the form submission's last event is its verdict |
| Server.DispatchEndsOnVerdict | server/app.go:403-513 | for codes "1" to "4", the last event is an error exactly when the reply is 404 |
| Server.AreaFailureStops | server/app.go:463-473 | a failed area selection in code "4" answers 404 with the area's failure body after the navigation notices, the area announcement and its error; the course is never announced and the page is the listing |
| Server.CourseFailureStops | server/app.go:475-486 | a failed course selection in code "4" answers 404 with the course's failure body; the events end with the course's error, and the slot search is never announced |
| Server.SelectCodes | server/app.go:404-429 | codes "1" and "2" answer 200 exactly when forceSelect succeeds and 404 otherwise, with forceSelect's page and no click |
| Server.SlotCode | server/app.go:430-454 | code "3" clicks only the first link with all three fragments; 200 exactly when there is one, 404 otherwise |
| Server.CompositeStopsAtFirstFailure | server/app.go:455-513 | code "4" stops at the first failed step with that step's 404 and never announces a later step; 200 only when all three steps succeed |
| Server.UnknownCodes | server/app.go:398-516 | any other code answers 400 and changes no page; only a non-empty code is announced |
| Server.ActionStatusMatchesReply | server/app.go:403-516 | for codes "1" to "4", the cached status is an error exactly when the reply is 404 |
| Server.CompositeStatusMatchesReply | server/app.go:455-513 | code "4" ends on an error event exactly when it answers 404 |
| Server.SubmitEvents | server/app.go:325-361 | the submission's events are well-formed |
| Server.SubmitLogin | server/app.go:320-363 | clicks the first "로그인" button, records the submission events, and answers 403 on the sign-on host and 200 otherwise |
| Server.LoginOnSession | server/app.go:301-363 | an unreadable body answers 400 after the request notice alone; an incomplete form answers 400 after the notice and the missing-field error, typing nothing; a complete form is typed, the first login button clicked, and the reply is 403 on the sign-on host and 200 otherwise, after the notice and the submission's events |
| Server.LoginOnSessionFollowsSteps | server/app.go:301-363 | the three outcomes LoginOnSession states are exactly LoginSteps' reply, typed credentials, click and events for that payload |
| Server.RequireSession | server/app.go:250-257 | the cookie's session, touched only in lastActive, or the 400 reply when there is none |
| Server.Login | server/app.go:290-364 | 405 for anything but POST, with nothing touched; 400 without a session; otherwise LoginSteps' reply and events on the cookie's session, with the registry unchanged |
| Server.SelectStep | server/app.go:405-416 | runs forceSelect and records the step's announcement and outcome |
| Server.SlotStep | server/app.go:431-454 | clicks the first qualifying link and records the search's announcement and outcome |
| Server.CompositeStep | server/app.go:455-513 | code "4" returns what CompositeRun says and records exactly its events |
| Server.ActionOnSession | server/app.go:396-516 | returns Dispatch's reply, page and click, and records exactly its events |
| Server.Action | server/app.go:387-517 | 400 without a session; otherwise Dispatch's outcome on the cookie's session, with the registry unchanged |
| Launch.SetSessionCookie | server/app.go:217-225 | the cookie carries the id under the session cookie's name, with path "/", HttpOnly and SameSite=Lax |
| Launch.Launch | server/launch.go:13-60 | the caller's old session is touched, then torn down (handles cleared, closing notice, channel closed) and removed first. On a failed id: the new browser is closed, 500, no cookie, and the new session is not registered. Otherwise: registered under the new id with live handles and fresh times, the cookie set, 200 |
| Launch.HandleLoginDialogs | server/launch.go:62-72 | at most two dialogs are answered: the first is dismissed and the second accepted |
| Standalone.Outcome | client/app.go:68-160 | at most the first tab changes, and the number of tabs stays the same |
| Standalone.Action | client/app.go:68-160 | the reply, tabs and click are those Outcome gives |
| Standalone.TabGate | client/app.go:80-92 | no tab answers 500 and a first tab off the lesson list answers 400, whatever the code; in both cases nothing changes |
| Standalone.AgreesWithServer | client/app.go:94-158 | codes "1" to "3" give the server's status, page and click; the bodies differ only by the server's trailing newline on 404 |
| Standalone.UnknownCodeWritesNothing | client/app.go:94-159 | any other code on the lesson list writes nothing and changes nothing; for a code other than "4" the server answers 400 instead |

## Left out

- Locks and goroutines: `sessionMu`, `session.mu` and `statusMu` are not modelled. Each
  method body runs as one atomic step, so interleavings between handlers, the reaper and
  the status stream are not covered.
- `handleLoginDialogs` runs in its own goroutine and blocks until a dialog opens. The
  model takes the number of dialogs that opened and lists the answers given.
- StatusStream (the server-sent-events writer), Move, Screenshot, Refresh, Close, `Run`,
  `main.go` and `action/launch.go` are not part of this model. Only the channel receive
  StatusStream performs is modelled, as `Receive`.
- JSON decoding, cookie parsing and query parsing are outside the model. The handlers
  take their results: the decoded credentials or None, the cookie value or None, and the
  code string.
- Browser driving is outside the model: launching Chrome, connecting, navigating,
  waiting for a load, the sleeps, `removeWaitPage`, typing into fields, and the click on
  `.total-loginN__btn` in Launch. The `Must*` calls panic when an element is missing;
  that path is not modelled.
- Pages are values. The page after code "4" navigates is the `listing` parameter, and
  the address Login settles on is the `settledUrl` parameter. Scripts the page runs in
  response to the input/change events are not modelled.
- `forceSelect` reads the value attribute of every option. An option without a value
  attribute is not told apart from one whose value equals its text.
- Server.Login: the session's `page` field is not consulted. Each handler receives the
  page as a parameter, so the panic on a session whose page was cleared concurrently is
  not modelled.
- Launch.Launch: the first navigation to the centre's main page and the later steps
  (the sleeps, the login page, the dialog goroutine, the click) are driver work that is
  not modelled. The reply and cookie are those written at the end.
- Standalone.Action: the desktop client's lookup of the DevTools address and its
  connection are not modelled. The tabs it finds are a parameter.
- Times do not model `time.Time` monotonic readings or a saturating `Sub`. They are
  unbounded integers.
- `client/app.go` and `action/app.go` write nothing for a code other than "1" to "3", so
  net/http answers 200 with an empty body, where the server's `Action` answers 400 for a
  code other than "4" and runs the composite step for "4" (server/app.go:455-515). The
  model follows the code (`Unwritten`).
- Every status event a handler records carries the handler's single `now`. The source
  stamps each push with its own `time.Now()` (server/app.go:70), across the sleeps of
  Login and Action, so the real times differ and increase; the closing notice of a reaper
  tick is likewise stamped with the tick's time rather than a later reading.
- Server.SlotCode: the page after the reservation click (which navigates) is not
  represented; the run's page is the one the click was made on.
- Sessions.Registry.RegisterSession: requires that the session is not already registered.
  Go does not check this, but its only caller, Launch, passes a session it has just
  created; the registry invariant (no session under two ids) depends on it.
