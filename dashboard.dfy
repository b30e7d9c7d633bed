/**
 * The employee dashboard (src/app/dashboard/page.tsx), the only place where
 * the order of shift events is constrained. Its work status is the last
 * event type the page submitted successfully, or OFFLINE; each of the four
 * buttons is enabled by a predicate over that status and the in-flight
 * flag. The status starts as OFFLINE on every load of the page: it is not
 * read back from the stored logs.
 */
module Dashboard {
  import opened Types
  import opened Auth
  import opened Timelog

  /** `type WorkStatus = EventType | 'OFFLINE'`. */
  datatype WorkStatus = Offline | Status(event: EventType)

  /** Lines 118-121: the button for `action` is enabled iff its `disabled`
      expression is false. While an action is in flight nothing is enabled,
      and from CLOCK_OUT nothing is enabled ever again. */
  function Enabled(action: EventType, status: WorkStatus, isActionLoading: bool): (r: bool)
    ensures isActionLoading ==> !r
    ensures status == Status(ClockOut) ==> !r
    ensures r ==> (status == Offline <==> action == ClockIn)
  {
    match action
    case ClockIn => !(isActionLoading || status != Offline)
    case LunchOut => !(isActionLoading || status != Status(ClockIn))
    case LunchIn => !(isActionLoading || status != Status(LunchOut))
    case ClockOut => !(isActionLoading || status == Offline || status == Status(ClockOut))
  }

  /** CLOCK_OUT is offered from every status of an open shift: after CLOCK_IN,
      during lunch (LUNCH_OUT) and after lunch (LUNCH_IN). */
  lemma ClockOutEnabledFrom(status: WorkStatus, isActionLoading: bool)
    ensures Enabled(ClockOut, status, isActionLoading) <==>
              !isActionLoading && status in {Status(ClockIn), Status(LunchOut), Status(LunchIn)}
  {
  }

  /** The status after a run of clicks that each succeed, starting from
      `status`; None when some click is on a button that is not enabled. */
  function RunFrom(status: WorkStatus, actions: seq<EventType>): (r: Option<WorkStatus>)
    ensures r.Some? && actions != [] ==> r.value == Status(actions[|actions| - 1])
    ensures r.Some? && actions == [] ==> r.value == status
    decreases |actions|
  {
    if actions == [] then Some(status)
    else if !Enabled(actions[0], status, false) then None
    else RunFrom(Status(actions[0]), actions[1..])
  }

  /** One more successful click on an enabled button extends a run. */
  lemma {:induction false} RunFromExtend(status: WorkStatus, actions: seq<EventType>, action: EventType)
    requires RunFrom(status, actions).Some? && Enabled(action, RunFrom(status, actions).value, false)
    ensures RunFrom(status, actions + [action]) == Some(Status(action))
    decreases |actions|
  {
    if actions != [] {
      assert (actions + [action])[1..] == actions[1..] + [action];
      RunFromExtend(Status(actions[0]), actions[1..], action);
    }
  }

  lemma {:induction false} RunFromClockOut(actions: seq<EventType>)
    ensures RunFrom(Status(ClockOut), actions).Some? <==> actions == []
  {
  }

  lemma {:induction false} RunFromLunchIn(actions: seq<EventType>)
    ensures RunFrom(Status(LunchIn), actions).Some? <==> actions == [] || actions == [ClockOut]
  {
    if actions != [] && actions[0] == ClockOut {
      RunFromClockOut(actions[1..]);
    }
  }

  lemma {:induction false} RunFromLunchOut(actions: seq<EventType>)
    ensures RunFrom(Status(LunchOut), actions).Some? <==>
              actions in {[], [LunchIn], [LunchIn, ClockOut], [ClockOut]}
  {
    if actions != [] {
      var rest := actions[1..];
      assert actions == [actions[0]] + rest;
      if actions[0] == LunchIn {
        RunFromLunchIn(rest);
        assert rest == [] <==> actions == [LunchIn];
        assert rest == [ClockOut] <==> actions == [LunchIn, ClockOut];
      } else if actions[0] == ClockOut {
        RunFromClockOut(rest);
        assert rest == [] <==> actions == [ClockOut];
      }
    }
  }

  lemma {:induction false} RunFromClockIn(actions: seq<EventType>)
    ensures RunFrom(Status(ClockIn), actions).Some? <==>
              actions in {[], [LunchOut], [LunchOut, LunchIn], [LunchOut, LunchIn, ClockOut],
                          [LunchOut, ClockOut], [ClockOut]}
  {
    if actions != [] {
      var rest := actions[1..];
      assert actions == [actions[0]] + rest;
      if actions[0] == LunchOut {
        RunFromLunchOut(rest);
        assert rest == [] <==> actions == [LunchOut];
        assert rest == [LunchIn] <==> actions == [LunchOut, LunchIn];
        assert rest == [LunchIn, ClockOut] <==> actions == [LunchOut, LunchIn, ClockOut];
        assert rest == [ClockOut] <==> actions == [LunchOut, ClockOut];
      } else if actions[0] == ClockOut {
        RunFromClockOut(rest);
        assert rest == [] <==> actions == [ClockOut];
      }
    }
  }

  /** The runs of clicks the page allows from OFFLINE, i.e. within one load
      of the page: one shift, with at most one lunch break, possibly not yet
      finished. CLOCK_OUT may come straight from CLOCK_IN or from LUNCH_OUT. */
  function ShiftPaths(): set<seq<EventType>> {
    {[], [ClockIn], [ClockIn, LunchOut], [ClockIn, LunchOut, LunchIn], [ClockIn, LunchOut, LunchIn, ClockOut],
     [ClockIn, LunchOut, ClockOut], [ClockIn, ClockOut]}
  }

  lemma {:induction false} RunFromOffline(actions: seq<EventType>)
    ensures RunFrom(Offline, actions).Some? <==> actions in ShiftPaths()
  {
    if actions != [] && actions[0] == ClockIn {
      var rest := actions[1..];
      assert actions == [ClockIn] + rest;
      RunFromClockIn(rest);
      assert rest == [] <==> actions == [ClockIn];
      assert rest == [LunchOut] <==> actions == [ClockIn, LunchOut];
      assert rest == [LunchOut, LunchIn] <==> actions == [ClockIn, LunchOut, LunchIn];
      assert rest == [LunchOut, LunchIn, ClockOut] <==> actions == [ClockIn, LunchOut, LunchIn, ClockOut];
      assert rest == [LunchOut, ClockOut] <==> actions == [ClockIn, LunchOut, ClockOut];
      assert rest == [ClockOut] <==> actions == [ClockIn, ClockOut];
    }
  }

  /** Once back from lunch, the page never offers LUNCH_OUT again, nor a new
      CLOCK_IN. */
  lemma {:induction false} NoSecondLunch(actions: seq<EventType>)
    requires RunFrom(Status(LunchIn), actions).Some?
    ensures LunchOut !in actions && ClockIn !in actions
  {
    RunFromLunchIn(actions);
  }

  /** The dashboard is shown only to a page holding a token and a stored
      role that is one of the two roles; otherwise it redirects to login. */
  predicate AccessGranted(token: Option<string>, role: Option<string>) {
    !(token.None? || token.value == "" || (role != Some("EMPLOYEE") && role != Some("ADMIN")))
  }

  lemma AccessGrantedForRoles(token: Option<string>, role: Option<string>)
    ensures AccessGranted(token, role) <==>
              token.Some? && token.value != "" && exists r :: role == Some(RoleName(r))
  {
    if role == Some("EMPLOYEE") {
      assert role == Some(RoleName(Employee));
    } else if role == Some("ADMIN") {
      assert role == Some(RoleName(Admin));
    }
  }

  /** The body the page posts for a click (line 63). */
  function ActionBody(eventType: EventType, latitude: real, longitude: real): TimeLogBody {
    TimeLogBody(Str(EventTypeName(eventType)), Num(latitude), Num(longitude))
  }

  /** What the server answers a click. Its decision takes neither the page's
      status nor the stored logs as input, so any click posted with a token
      whose claim names a stored user is stored as sent, including one the
      page's buttons would not offer. The order of events is enforced by the
      page alone. */
  lemma ServerAcceptsEveryClick(token: string, verify: Verifier, users: seq<User>, eventType: EventType,
                                latitude: real, longitude: real, now: int)
    requires verify(token).Some? && verify(token).value != "" && UserStored(users, verify(token).value)
    ensures Submit(UserIdFromToken(Some(BearerHeader(token)), verify), ActionBody(eventType, latitude, longitude), users, now)
            == Ok(201, TimeLog(verify(token).value, eventType, now, latitude, longitude))
  {
  }

  /** How a submission ended, as seen by the page: a reply with its HTTP
      status and `message`, or a `fetch` (or body parse) that threw. */
  datatype FetchOutcome = Responded(status: int, message: string) | FetchFailed(message: string)

  /** `res.ok`. */
  predicate Succeeded(outcome: FetchOutcome) {
    outcome.Responded? && 200 <= outcome.status <= 299
  }

  const DefaultActionError := "Error al registrar la acción"
  const GeolocationErrorPrefix := "Error de geolocalización: "

  /** The error text shown for a failed submission: the server's message,
      or the default one when the reply has none. */
  function FailureText(outcome: FetchOutcome): string {
    match outcome
    case Responded(_, message) => if message == "" then DefaultActionError else message
    case FetchFailed(message) => message
  }

  class DashboardPage {
    var userName: Option<string>
    var isLoading: bool
    var isActionLoading: bool
    var error: Option<string>
    var workStatus: WorkStatus
    var location: Option<(real, real)>
    /** The event type of the action in flight: the argument of `handleAction`
        that its geolocation callbacks capture. */
    var pending: Option<EventType>
    /** The actions whose submission succeeded since the page was created. */
    ghost var clicks: seq<EventType>

    /** The status is where the successful clicks lead from OFFLINE; an
        action is in flight iff one is pending, and it was enabled when
        clicked on a page past its access guard. */
    ghost predicate Valid()
      reads this
    {
      && RunFrom(Offline, clicks) == Some(workStatus)
      && (isActionLoading <==> pending.Some?)
      && (pending.Some? ==> Enabled(pending.value, workStatus, false) && !isLoading)
    }

    /** The state before the page has read its session (lines 13-19). */
    constructor ()
      ensures Valid() && clicks == []
      ensures isLoading && !isActionLoading && error == None
      ensures workStatus == Offline && location == None && userName == None
    {
      userName := None;
      isLoading := true;
      isActionLoading := false;
      error := None;
      workStatus := Offline;
      location := None;
      pending := None;
      clicks := [];
    }

    /** The access guard (lines 26-39): redirect to login, changing nothing,
        or show the page for `name`. The status stays what it was. */
    method Mount(token: Option<string>, name: Option<string>, role: Option<string>) returns (redirectToLogin: bool)
      requires Valid()
      modifies this
      ensures Valid()
      ensures redirectToLogin == !AccessGranted(token, role)
      ensures redirectToLogin ==> unchanged(this)
      ensures !redirectToLogin ==> userName == name && !isLoading
      ensures isActionLoading == old(isActionLoading) && error == old(error)
      ensures workStatus == old(workStatus) && location == old(location)
      ensures pending == old(pending) && clicks == old(clicks)
    {
      if token.None? || token.value == "" || (role != Some("EMPLOYEE") && role != Some("ADMIN")) {
        redirectToLogin := true;
      } else {
        redirectToLogin := false;
        userName := name;
        isLoading := false;
      }
    }

    /** A click on the button of `action`, possible only once the page is
        shown (the spinner of lines 90-92 has no buttons) and while that
        button is enabled (lines 118-121), runs lines 47-48: clear the error
        and mark the action in flight. */
    method StartAction(action: EventType)
      requires Valid() && !isLoading && Enabled(action, workStatus, isActionLoading)
      modifies this
      ensures Valid()
      ensures pending == Some(action) && error == None && isActionLoading
      ensures workStatus == old(workStatus) && location == old(location) && clicks == old(clicks)
      ensures userName == old(userName) && isLoading == old(isLoading)
    {
      error := None;
      isActionLoading := true;
      pending := Some(action);
    }

    /** The position is known and the pending event was posted (lines
        51-82): the location is shown, the status becomes the event only on
        an ok reply, otherwise the error is shown; the action ends. */
    method PositionResolved(latitude: real, longitude: real, outcome: FetchOutcome)
      requires Valid() && isActionLoading
      modifies this
      ensures Valid()
      ensures location == Some((latitude, longitude)) && !isActionLoading && pending == None
      ensures Succeeded(outcome) ==>
                workStatus == Status(old(pending).value) && clicks == old(clicks) + [old(pending).value]
                && error == old(error)
      ensures !Succeeded(outcome) ==>
                workStatus == old(workStatus) && clicks == old(clicks) && error == Some(FailureText(outcome))
      ensures userName == old(userName) && isLoading == old(isLoading)
    {
      var eventType := pending.value;
      location := Some((latitude, longitude));
      if Succeeded(outcome) {
        RunFromExtend(Offline, clicks, eventType);
        workStatus := Status(eventType);
        clicks := clicks + [eventType];
      } else {
        error := Some(FailureText(outcome));
      }
      isActionLoading := false;
      pending := None;
    }

    /** The position could not be obtained (lines 83-86): nothing is posted,
        the status is unchanged and the geolocation error is shown. */
    method PositionFailed(message: string)
      requires Valid() && isActionLoading
      modifies this
      ensures Valid()
      ensures error == Some(GeolocationErrorPrefix + message) && !isActionLoading && pending == None
      ensures workStatus == old(workStatus) && location == old(location) && clicks == old(clicks)
      ensures userName == old(userName) && isLoading == old(isLoading)
    {
      error := Some(GeolocationErrorPrefix + message);
      isActionLoading := false;
      pending := None;
    }
  }

  /** Whatever the page has been through, its successful clicks form one
      shift with at most one lunch, and its status is the last of them. */
  lemma PageFollowsShift(page: DashboardPage)
    requires page.Valid()
    ensures page.clicks in ShiftPaths()
    ensures page.clicks != [] ==> page.workStatus == Status(page.clicks[|page.clicks| - 1])
  {
    RunFromOffline(page.clicks);
  }
}
