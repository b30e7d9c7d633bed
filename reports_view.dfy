/**
 * The report page of the admin panel (src/components/Reports.tsx): the
 * query string it sends for the three filter inputs, and the Spanish label
 * it shows for an event type.
 */
module ReportsView {
  import opened Types
  import opened Reports

  /** `new URLSearchParams({ userId, startDate, endDate })`: all three keys are
      always sent, an unset filter as the empty string. */
  function ClientQuery(userId: string, startDate: string, endDate: string): Query {
    [("userId", userId), ("startDate", startDate), ("endDate", endDate)]
  }

  /** The route reads back exactly the three values the page sent. */
  lemma ClientQueryRoundTrip(userId: string, startDate: string, endDate: string)
    ensures ParamsOf(ClientQuery(userId, startDate, endDate))
            == ReportParams(Some(userId), Some(startDate), Some(endDate))
  {
    var q := ClientQuery(userId, startDate, endDate);
    assert q[1..] == [("startDate", startDate), ("endDate", endDate)];
    assert q[1..][1..] == [("endDate", endDate)];
    assert |"userId"| != |"startDate"| && |"userId"| != |"endDate"| && |"startDate"| != |"endDate"|;
    assert SearchParam(q, "userId") == Some(userId);
    assert SearchParam(q[1..][1..], "endDate") == Some(endDate);
    assert SearchParam(q[1..], "endDate") == Some(endDate);
    assert SearchParam(q[1..], "startDate") == Some(startDate);
  }

  /** The "Todos" option is the empty user id: the filter then has no owner
      part, so the logs of every user in the date range are reported. */
  lemma AllUsersOption(startDate: string, endDate: string, dayOf: DateParser, log: TimeLog)
    ensures BuildWhere(ParamsOf(ClientQuery("", startDate, endDate)), dayOf).userId == None
    ensures Matches(BuildWhere(ParamsOf(ClientQuery("", startDate, endDate)), dayOf), log) <==>
              (startDate != "" ==> DayOfTimestamp(log.timestamp) >= dayOf(startDate))
              && (endDate != "" ==> DayOfTimestamp(log.timestamp) <= dayOf(endDate))
  {
    ClientQueryRoundTrip("", startDate, endDate);
    MatchesInDays(ParamsOf(ClientQuery("", startDate, endDate)), dayOf, log);
  }

  /** A report generated with every filter unset holds every stored log,
      newest first. */
  lemma EmptyFormReportsEverything(logs: seq<TimeLog>, users: seq<User>, dayOf: DateParser)
    ensures var rows := Report(logs, users, BuildWhere(ParamsOf(ClientQuery("", "", "")), dayOf));
            multiset(Logs(rows)) == multiset(logs) && NewestFirst(Logs(rows))
  {
    ClientQueryRoundTrip("", "", "");
    var w := BuildWhere(ParamsOf(ClientQuery("", "", "")), dayOf);
    assert w == Where(None, None, None);
    var rows := Report(logs, users, w);
    assert forall x :: multiset(Logs(rows))[x] == multiset(logs)[x];
  }

  /** `translateEventType`: the Spanish label of a known event type; any
      other string is shown as it is. */
  function TranslateEventType(eventType: string): (shown: string)
    ensures eventType == EventTypeName(ClockIn) ==> shown == "Entrada"
    ensures eventType == EventTypeName(LunchOut) ==> shown == "Salida a comer"
    ensures eventType == EventTypeName(LunchIn) ==> shown == "Regreso de comer"
    ensures eventType == EventTypeName(ClockOut) ==> shown == "Salida"
    ensures (forall e :: eventType != EventTypeName(e)) ==> shown == eventType
  {
    match eventType
    case "CLOCK_IN" => assert eventType == EventTypeName(ClockIn); "Entrada"
    case "LUNCH_OUT" => assert eventType == EventTypeName(LunchOut); "Salida a comer"
    case "LUNCH_IN" => assert eventType == EventTypeName(LunchIn); "Regreso de comer"
    case "CLOCK_OUT" => assert eventType == EventTypeName(ClockOut); "Salida"
    case _ => eventType
  }

  /** The four event types get four different labels. */
  lemma LabelsDistinct(e1: EventType, e2: EventType)
    requires e1 != e2
    ensures TranslateEventType(EventTypeName(e1)) != TranslateEventType(EventTypeName(e2))
  {
  }
}
