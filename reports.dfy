/**
 * The report query (src/app/api/reports/route.ts). For an admin caller it
 * builds a conjunctive filter from the optional query parameters `userId`,
 * `startDate` and `endDate`, and returns the matching logs newest first,
 * each joined with its owner's name. A date is a day number here and a
 * timestamp a count of seconds, so day `d` starts at `d * 86400`; the end
 * date is handled as "strictly before the start of the next day".
 */
module Reports {
  import opened Types
  import opened Auth
  import opened Store

  const SecondsPerDay := 86400

  /** A parsed query string: its key/value pairs in order. */
  type Query = seq<(string, string)>

  /** `searchParams.get(key)`: the first value for the key, null if none. */
  function SearchParam(query: Query, key: string): (r: Option<string>)
    ensures r.None? <==> forall i :: 0 <= i < |query| ==> query[i].0 != key
    ensures r.Some? ==> exists i :: 0 <= i < |query| && query[i] == (key, r.value)
                                    && forall j :: 0 <= j < i ==> query[j].0 != key
  {
    if query == [] then None
    else if query[0].0 == key then Some(query[0].1)
    else
      var r := SearchParam(query[1..], key);
      assert forall i :: 0 <= i < |query| - 1 ==> query[1..][i] == query[i + 1];
      r
  }

  /** The three report parameters as the route reads them (lines 14-16). */
  datatype ReportParams = ReportParams(userId: Option<string>, startDate: Option<string>, endDate: Option<string>)

  function ParamsOf(query: Query): ReportParams {
    ReportParams(SearchParam(query, "userId"), SearchParam(query, "startDate"), SearchParam(query, "endDate"))
  }

  /** `new Date(s)` on a `YYYY-MM-DD` parameter: the number of its day. */
  type DateParser = string -> int

  /** A query parameter counts only when it is truthy: null and "" are absent. */
  predicate Given(p: Option<string>) {
    p.Some? && p.value != ""
  }

  /** The `where` object: an optional owner and an optional timestamp range
      (`gte`, inclusive lower bound; `lt`, exclusive upper bound). */
  datatype Where = Where(userId: Option<string>, gte: Option<int>, lt: Option<int>)

  /** Lines 18-35: start from the empty filter and set each part whose
      parameter is given; the upper bound is the start of the day AFTER the
      end date. */
  function BuildWhere(p: ReportParams, dayOf: DateParser): (w: Where)
    ensures w.userId.Some? <==> Given(p.userId)
    ensures Given(p.userId) ==> w.userId == p.userId
    ensures w.gte.Some? <==> Given(p.startDate)
    ensures Given(p.startDate) ==> w.gte == Some(dayOf(p.startDate.value) * SecondsPerDay)
    ensures w.lt.Some? <==> Given(p.endDate)
    ensures Given(p.endDate) ==> w.lt == Some((dayOf(p.endDate.value) + 1) * SecondsPerDay)
  {
    var byUser := if Given(p.userId) then p.userId else None;
    var gte := if Given(p.startDate) then Some(dayOf(p.startDate.value) * SecondsPerDay) else None;
    var lt := if Given(p.endDate) then Some((dayOf(p.endDate.value) + 1) * SecondsPerDay) else None;
    Where(byUser, gte, lt)
  }

  /** Whether a log satisfies every part of the filter. */
  predicate Matches(w: Where, log: TimeLog) {
    && (w.userId.Some? ==> log.userId == w.userId.value)
    && (w.gte.Some? ==> log.timestamp >= w.gte.value)
    && (w.lt.Some? ==> log.timestamp < w.lt.value)
  }

  /** The calendar day a timestamp falls in. */
  function DayOfTimestamp(t: int): int {
    t / SecondsPerDay
  }

  lemma DayBounds(t: int, d: int)
    ensures t >= d * SecondsPerDay <==> DayOfTimestamp(t) >= d
    ensures t < (d + 1) * SecondsPerDay <==> DayOfTimestamp(t) <= d
  {
    var q, m := t / SecondsPerDay, t % SecondsPerDay;
    assert t == q * SecondsPerDay + m && 0 <= m < SecondsPerDay;
    if q >= d {
      assert q * SecondsPerDay >= d * SecondsPerDay;
    } else {
      assert (q + 1) * SecondsPerDay <= d * SecondsPerDay;
    }
    if q <= d {
      assert (q + 1) * SecondsPerDay <= (d + 1) * SecondsPerDay;
    } else {
      assert q * SecondsPerDay >= (d + 1) * SecondsPerDay;
    }
  }

  /** The meaning of the filter in calendar terms: a log is selected iff it
      belongs to the given user (if any), and its day is on or after the start
      date and on or before the end date (each if given). Both dates are
      inclusive: every instant of the end day is selected. */
  lemma MatchesInDays(p: ReportParams, dayOf: DateParser, log: TimeLog)
    ensures Matches(BuildWhere(p, dayOf), log) <==>
              && (Given(p.userId) ==> log.userId == p.userId.value)
              && (Given(p.startDate) ==> DayOfTimestamp(log.timestamp) >= dayOf(p.startDate.value))
              && (Given(p.endDate) ==> DayOfTimestamp(log.timestamp) <= dayOf(p.endDate.value))
  {
    if Given(p.startDate) {
      DayBounds(log.timestamp, dayOf(p.startDate.value));
    }
    if Given(p.endDate) {
      DayBounds(log.timestamp, dayOf(p.endDate.value));
    }
  }

  /** With the same start and end date, exactly the logs of that one day
      (and of the user, if given) are selected. */
  lemma SingleDay(p: ReportParams, dayOf: DateParser, log: TimeLog)
    requires Given(p.startDate) && p.endDate == p.startDate
    ensures Matches(BuildWhere(p, dayOf), log) <==>
              (Given(p.userId) ==> log.userId == p.userId.value)
              && DayOfTimestamp(log.timestamp) == dayOf(p.startDate.value)
  {
    MatchesInDays(p, dayOf, log);
  }

  /** Without any given parameter the filter is empty and selects every log. */
  lemma NoParamsSelectEverything(p: ReportParams, dayOf: DateParser, log: TimeLog)
    requires !Given(p.userId) && !Given(p.startDate) && !Given(p.endDate)
    ensures BuildWhere(p, dayOf) == Where(None, None, None)
    ensures Matches(BuildWhere(p, dayOf), log)
  {
  }

  /** The logs that match, in store order; each matching log keeps its
      multiplicity and every other log is dropped. */
  function Filter(logs: seq<TimeLog>, w: Where): (r: seq<TimeLog>)
    ensures forall x :: x in r ==> Matches(w, x)
    ensures forall x :: multiset(r)[x] == if Matches(w, x) then multiset(logs)[x] else 0
  {
    if logs == [] then []
    else
      var rest := Filter(logs[1..], w);
      assert logs == [logs[0]] + logs[1..];
      if Matches(w, logs[0]) then [logs[0]] + rest else rest
  }

  /** Newest first: timestamps never increase along the sequence. */
  predicate NewestFirst(s: seq<TimeLog>) {
    forall i, j :: 0 <= i < j < |s| ==> s[i].timestamp >= s[j].timestamp
  }

  /** Insert a log into a newest-first sequence, before the first log that
      is not newer than it. */
  function Insert(x: TimeLog, s: seq<TimeLog>): (r: seq<TimeLog>)
    requires NewestFirst(s)
    ensures NewestFirst(r)
    ensures multiset(r) == multiset(s) + multiset{x}
    ensures forall y :: y in r ==> y == x || y in s
  {
    if s == [] || s[0].timestamp <= x.timestamp then [x] + s
    else
      var rest := Insert(x, s[1..]);
      assert s == [s[0]] + s[1..];
      assert forall y :: y in rest ==> y.timestamp <= s[0].timestamp;
      [s[0]] + rest
  }

  /** `orderBy: { timestamp: 'desc' }`: a newest-first permutation. */
  function SortNewestFirst(s: seq<TimeLog>): (r: seq<TimeLog>)
    ensures NewestFirst(r)
    ensures multiset(r) == multiset(s)
  {
    if s == [] then []
    else
      assert s == [s[0]] + s[1..];
      Insert(s[0], SortNewestFirst(s[1..]))
  }

  /** A log with its owner's name (`include: { user: { select: { name } } }`),
      None if the owner is not in the directory. */
  datatype ReportRow = ReportRow(log: TimeLog, userName: Option<string>)

  function OwnerName(users: seq<User>, log: TimeLog): Option<string> {
    match FindUserById(users, log.userId)
    case Some(u) => Some(u.name)
    case None => None
  }

  function Logs(rows: seq<ReportRow>): (r: seq<TimeLog>)
    ensures |r| == |rows| && forall i :: 0 <= i < |rows| ==> r[i] == rows[i].log
  {
    seq(|rows|, i requires 0 <= i < |rows| => rows[i].log)
  }

  /** Every row names its log's owner: a stored user with the log's user id
      and that user's name, or None exactly when no stored user has that id;
      when ids are unique, the name is THE owner's. */
  predicate OwnerNamesJoined(rows: seq<ReportRow>, users: seq<User>) {
    && (forall i :: 0 <= i < |rows| ==>
          (rows[i].userName.None? <==> forall u :: u in users ==> u.id != rows[i].log.userId))
    && (forall i :: 0 <= i < |rows| && rows[i].userName.Some? ==>
          exists u :: u in users && u.id == rows[i].log.userId && rows[i].userName == Some(u.name))
    && (UniqueIds(users) ==>
          forall i, u :: 0 <= i < |rows| && u in users && u.id == rows[i].log.userId ==>
            rows[i].userName == Some(u.name))
  }

  /** Each log joined with the name of its owner, in the same order. */
  function Join(logs: seq<TimeLog>, users: seq<User>): (rows: seq<ReportRow>)
    ensures Logs(rows) == logs
    ensures OwnerNamesJoined(rows, users)
  {
    seq(|logs|, i requires 0 <= i < |logs| => ReportRow(logs[i], OwnerName(users, logs[i])))
  }

  /** The query result for a filter: the matching logs and only them, newest
      first, each joined with the name of the stored user it belongs to. */
  function Report(logs: seq<TimeLog>, users: seq<User>, w: Where): (rows: seq<ReportRow>)
    ensures forall i :: 0 <= i < |rows| ==> Matches(w, rows[i].log)
    ensures NewestFirst(Logs(rows))
    ensures forall x :: multiset(Logs(rows))[x] == if Matches(w, x) then multiset(logs)[x] else 0
    ensures OwnerNamesJoined(rows, users)
  {
    var filtered := Filter(logs, w);
    var sorted := SortNewestFirst(filtered);
    var rows := Join(sorted, users);
    assert forall i :: 0 <= i < |rows| ==> rows[i].log == sorted[i] && sorted[i] in multiset(filtered);
    rows
  }

  /** In a store whose logs all belong to stored users, every reported log
      carries a name. */
  lemma {:induction false} OwnedLogsAreNamed(logs: seq<TimeLog>, users: seq<User>, w: Where)
    requires LogsOwned(users, logs)
    ensures forall row :: row in Report(logs, users, w) ==> row.userName.Some?
  {
    var rows := Report(logs, users, w);
    forall i | 0 <= i < |rows| ensures rows[i].userName.Some? {
      var x := Logs(rows)[i];
      assert x in multiset(Logs(rows));
      assert x in logs;
      var u :| u in users && u.id == x.userId;
    }
  }

  /** `GET /api/reports`: 401 for a caller who is not a stored admin,
      otherwise 200 with the report for the parameters of the query string. */
  function Get(header: Option<string>, verify: Verifier, users: seq<User>, logs: seq<TimeLog>, query: Query, dayOf: DateParser)
    : (r: Reply<seq<ReportRow>>)
    ensures r.Err? <==> AdminUserFromToken(header, verify, users).None?
    ensures r.Err? ==> r == Err(401, MsgUnauthorized)
    ensures r.Ok? ==> r.status == 200 && r.value == Report(logs, users, BuildWhere(ParamsOf(query), dayOf))
  {
    if AdminUserFromToken(header, verify, users).None? then Err(401, MsgUnauthorized)
    else Ok(200, Report(logs, users, BuildWhere(ParamsOf(query), dayOf)))
  }
}
