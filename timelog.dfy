/**
 * Shift-event submission (src/app/api/timelog/route.ts). The caller is
 * identified by the plain token policy; the body must carry an event type
 * and both coordinates, and the event type must be one of the four enum
 * values. The route then appends one log for the caller. It does NOT look
 * at the caller's earlier logs: no ordering of events is enforced here.
 */
module Timelog {
  import opened Types
  import opened Auth
  import opened Store

  /** The JSON body `{ eventType, latitude, longitude }`. */
  datatype TimeLogBody = TimeLogBody(eventType: Json, latitude: Json, longitude: Json)

  const MsgInvalidEventType := "Invalid event type"

  /** Falsy event type, or a coordinate that is `=== undefined`; a coordinate
      equal to 0 is present. */
  predicate MissingRequiredFields(body: TimeLogBody) {
    Falsy(body.eventType) || body.latitude == Undefined || body.longitude == Undefined
  }

  /** Whether the directory holds a user with this id. */
  predicate UserStored(users: seq<User>, id: string) {
    exists u :: u in users && u.id == id
  }

  /** What the route answers to a caller whose token yields `userId`, and the
      log it creates, in the order the route checks: identity, fields, enum.
      The insert itself fails into the route's 500 handler when a present
      coordinate is not a number (the float columns refuse it) or when the
      claimed user is not in the directory (the required relation of a log to
      its user refuses it). `now` is the store's creation timestamp. The
      stored logs are not an input: earlier events never affect the answer. */
  function Submit(userId: Option<string>, body: TimeLogBody, users: seq<User>, now: int): (r: Reply<TimeLog>)
    ensures (userId.None? || userId == Some("")) <==> r == Err(401, MsgUnauthorized)
    ensures r == Err(400, MsgMissingFields) <==>
              userId.Some? && userId.value != "" && MissingRequiredFields(body)
    ensures r == Err(400, MsgInvalidEventType) <==>
              userId.Some? && userId.value != "" && !MissingRequiredFields(body) && ParseEventType(body.eventType).None?
    ensures r == Err(500, MsgInternal) <==>
              userId.Some? && userId.value != "" && !MissingRequiredFields(body) && ParseEventType(body.eventType).Some?
              && (!body.latitude.Num? || !body.longitude.Num? || !UserStored(users, userId.value))
    ensures r.Ok? <==>
              userId.Some? && userId.value != "" && ParseEventType(body.eventType).Some?
              && body.latitude.Num? && body.longitude.Num? && UserStored(users, userId.value)
    ensures r.Ok? ==> r.status == 201 && r.value.userId == userId.value && r.value.timestamp == now
    ensures r.Ok? ==> body == TimeLogBody(Str(EventTypeName(r.value.eventType)), Num(r.value.latitude), Num(r.value.longitude))
    ensures r.Err? ==> r.status in {400, 401, 500}
  {
    if userId.None? || userId.value == "" then Err(401, MsgUnauthorized)
    else if MissingRequiredFields(body) then Err(400, MsgMissingFields)
    else match ParseEventType(body.eventType)
      case None => Err(400, MsgInvalidEventType)
      case Some(eventType) =>
        if !body.latitude.Num? || !body.longitude.Num? || FindUserById(users, userId.value).None? then Err(500, MsgInternal)
        else Ok(201, TimeLog(userId.value, eventType, now, body.latitude.n, body.longitude.n))
  }

  /** The missing-field check runs first: an empty event type, although not
      an enum value either, is reported as a missing field. */
  lemma EmptyEventTypeIsMissing(userId: string, latitude: Json, longitude: Json, users: seq<User>, now: int)
    requires userId != ""
    ensures Submit(Some(userId), TimeLogBody(Str(""), latitude, longitude), users, now) == Err(400, MsgMissingFields)
  {
  }

  /** Coordinates equal to 0 are present: the check is `=== undefined`. */
  lemma ZeroCoordinatesArePresent(userId: string, e: EventType, users: seq<User>, now: int)
    requires userId != "" && UserStored(users, userId)
    ensures Submit(Some(userId), TimeLogBody(Str(EventTypeName(e)), Num(0.0), Num(0.0)), users, now)
            == Ok(201, TimeLog(userId, e, now, 0.0, 0.0))
  {
  }

  /** `POST /api/timelog`. The reply depends on the header, the body and the
      directory, never on the logs already stored; on success exactly one log
      is appended and every earlier log is left as it was. */
  method Post(db: Database, header: Option<string>, verify: Verifier, body: TimeLogBody, now: int)
    returns (resp: Reply<TimeLog>)
    requires db.Valid()
    modifies db
    ensures db.Valid()
    ensures resp == Submit(UserIdFromToken(header, verify), body, old(db.users), now)
    ensures db.users == old(db.users)
    ensures db.logs == if resp.Ok? then old(db.logs) + [resp.value] else old(db.logs)
  {
    var userId := UserIdFromToken(header, verify);
    if userId.None? || userId.value == "" {
      return Err(401, MsgUnauthorized);
    }
    if MissingRequiredFields(body) {
      return Err(400, MsgMissingFields);
    }
    var eventType := ParseEventType(body.eventType);
    if eventType.None? {
      return Err(400, MsgInvalidEventType);
    }
    if !body.latitude.Num? || !body.longitude.Num? || FindUserById(db.users, userId.value).None? {
      return Err(500, MsgInternal);
    }
    var log := TimeLog(userId.value, eventType.value, now, body.latitude.n, body.longitude.n);
    db.logs := db.logs + [log];
    resp := Ok(201, log);
  }
}
