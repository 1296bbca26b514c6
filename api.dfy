/**
 * The client side of the REST interface: how a non-2xx response becomes an
 * error, how a network failure is renamed, the client-side fallbacks of the
 * two optional "pending" endpoints, and the notification calls that swallow
 * their failures.
 */
module Api {
  import opened Wrappers
  import opened Text
  import opened Lists
  import opened Booking

  /**
   * The four fields of a JSON error body the client inspects, as strings;
   * None when the field is absent.
   */
  datatype ErrorJson = ErrorJson(
    message: Option<string>, error: Option<string>,
    detail: Option<string>, details: Option<string>)

  /**
   * What `fetch` resolved with. `bodyText` is None when reading the body
   * failed; `json` is None when the body is not a JSON object.
   */
  datatype Response = Response(
    status: int, statusText: string,
    bodyText: Option<string>, json: Option<ErrorJson>)

  /** The errors a call can reject with. */
  datatype FetchError =
    | HttpError(message: string, status: int, statusText: string, details: string)
    | TypeError(message: string)
    | OtherError(message: string)

  /** What the transport did: answered with a response, or threw. */
  datatype Transport = Responded(response: Response) | Threw(thrown: FetchError)

  /** The connectivity message that replaces a failed network request. */
  const ConnectivityMessage: string := "Bağlantı hatası. İnternet bağlantınızı kontrol edin."

  /** `response.ok` */
  predicate IsOk(status: int) {
    200 <= status <= 299
  }

  /** A JSON field is truthy when present and not the empty string. */
  predicate Truthy(field: Option<string>) {
    field.Some? && field.value != ""
  }

  /** The first truthy entry of a list of optional fields. */
  function FirstTruthy(fields: seq<Option<string>>): (r: Option<string>)
    ensures r.None? <==> forall i :: 0 <= i < |fields| ==> !Truthy(fields[i])
    ensures r.Some? ==> exists i :: 0 <= i < |fields| && fields[i] == r && Truthy(fields[i])
                          && forall j :: 0 <= j < i ==> !Truthy(fields[j])
  {
    if fields == [] then None
    else if Truthy(fields[0]) then fields[0]
    else
      var r := FirstTruthy(fields[1..]);
      assert r.Some? ==> exists i :: 1 <= i < |fields| && fields[i] == r && Truthy(fields[i])
                          && forall j :: 1 <= j < i ==> !Truthy(fields[j]) by {
        if r.Some? {
          var k :| 0 <= k < |fields| - 1 && fields[1..][k] == r && Truthy(fields[1..][k])
                   && forall j :: 0 <= j < k ==> !Truthy(fields[1..][j]);
          assert fields[k + 1] == r;
          forall j | 1 <= j < k + 1 ensures !Truthy(fields[j]) {
            assert fields[j] == fields[1..][j - 1];
          }
        }
      }
      r
  }

  /** The precedence in which the error body's fields are consulted. */
  function FieldsInOrder(j: ErrorJson): seq<Option<string>> {
    [j.message, j.error, j.detail, j.details]
  }

  /**
   * The error detail of a non-2xx response: the first truthy field among
   * message, error, detail and details; else the raw body; and when the body
   * could not be read, `HTTP {status}: {statusText}`.
   */
  function DetailsOf(resp: Response): (details: string)
    ensures resp.bodyText.None? ==> details == "HTTP " + IntToString(resp.status) + ": " + resp.statusText
    ensures resp.bodyText.Some? && resp.json.None? ==> details == resp.bodyText.value
    ensures resp.bodyText.Some? && resp.json.Some? ==>
      details == resp.bodyText.value || (details != "" && Some(details) in FieldsInOrder(resp.json.value))
  {
    match resp.bodyText
    case None => "HTTP " + IntToString(resp.status) + ": " + resp.statusText
    case Some(text) =>
      if resp.json.Some? && FirstTruthy(FieldsInOrder(resp.json.value)).Some? then
        FirstTruthy(FieldsInOrder(resp.json.value)).value
      else text
  }

  /** The if/else chain of `enhancedFetch` that assigns `errorDetails`. */
  method ErrorDetails(resp: Response) returns (errorDetails: string)
    ensures errorDetails == DetailsOf(resp)
  {
    errorDetails := "";
    if resp.bodyText.Some? {
      var errorBody := resp.bodyText.value;
      if resp.json.Some? {
        var errorJson := resp.json.value;
        DetailsPrecedence(resp);
        if Truthy(errorJson.message) {
          errorDetails := errorJson.message.value;
        } else if Truthy(errorJson.error) {
          errorDetails := errorJson.error.value;
        } else if Truthy(errorJson.detail) {
          errorDetails := errorJson.detail.value;
        } else if Truthy(errorJson.details) {
          errorDetails := errorJson.details.value;
        } else {
          errorDetails := errorBody;
        }
      } else {
        errorDetails := errorBody;
      }
    } else {
      errorDetails := "HTTP " + IntToString(resp.status) + ": " + resp.statusText;
    }
  }

  /**
   * The error thrown for a non-2xx response, with status, statusText and
   * details attached; its message is the status text, " - " and the details.
   */
  function HttpFailure(resp: Response): (e: FetchError)
    ensures e.HttpError? && e.status == resp.status && e.statusText == resp.statusText && e.details == DetailsOf(resp)
    ensures e.message == resp.statusText + " - " + e.details
  {
    var details := DetailsOf(resp);
    HttpError(resp.statusText + " - " + details, resp.status, resp.statusText, details)
  }

  /** The `catch` of `enhancedFetch`: a TypeError about a failed network request is renamed, everything else is rethrown. */
  function Rethrown(e: FetchError): (r: FetchError)
    ensures e.TypeError? && Contains(e.message, "Network request failed") ==> r == OtherError(ConnectivityMessage)
    ensures !(e.TypeError? && Contains(e.message, "Network request failed")) ==> r == e
  {
    if e.TypeError? && Contains(e.message, "Network request failed") then OtherError(ConnectivityMessage) else e
  }

  /**
   * `enhancedFetch`: resolves with the response exactly when it is 2xx;
   * otherwise rejects with the HTTP error built from the body, or with the
   * (renamed) transport error.
   */
  method EnhancedFetch(t: Transport) returns (r: Result<Response, FetchError>)
    ensures r.Success? <==> t.Responded? && IsOk(t.response.status)
    ensures r.Success? ==> r.value == t.response
    ensures t.Responded? && !IsOk(t.response.status) ==> r == Failure(HttpFailure(t.response))
    ensures t.Threw? ==> r == Failure(Rethrown(t.thrown))
  {
    if t.Threw? {
      r := Failure(Rethrown(t.thrown));
      return;
    }
    var response := t.response;
    if !IsOk(response.status) {
      var errorDetails := ErrorDetails(response);
      var error := HttpError(response.statusText + " - " + errorDetails, response.status, response.statusText, errorDetails);
      // the HTTP error passes through the same catch; it is not a TypeError, so it is rethrown as is
      r := Failure(Rethrown(error));
      return;
    }
    r := Success(response);
  }

  /** The precedence among the four JSON fields. */
  lemma {:induction false} DetailsPrecedence(resp: Response)
    requires resp.bodyText.Some? && resp.json.Some?
    ensures Truthy(resp.json.value.message) ==> DetailsOf(resp) == resp.json.value.message.value
    ensures !Truthy(resp.json.value.message) && Truthy(resp.json.value.error) ==> DetailsOf(resp) == resp.json.value.error.value
    ensures (!Truthy(resp.json.value.message) && !Truthy(resp.json.value.error) && Truthy(resp.json.value.detail))
              ==> DetailsOf(resp) == resp.json.value.detail.value
    ensures (!Truthy(resp.json.value.message) && !Truthy(resp.json.value.error) && !Truthy(resp.json.value.detail)
               && Truthy(resp.json.value.details)) ==> DetailsOf(resp) == resp.json.value.details.value
    ensures (forall i :: 0 <= i < 4 ==> !Truthy(FieldsInOrder(resp.json.value)[i])) ==> DetailsOf(resp) == resp.bodyText.value
  {
    var f := FieldsInOrder(resp.json.value);
    assert f[1..] == [f[1], f[2], f[3]];
    assert f[2..] == [f[2], f[3]];
    assert f[3..] == [f[3]];
  }

  /**
   * The body `createReservation` posts: exactly these five fields, as the
   * caller built them. `userId` is None when the stored id did not parse (NaN).
   */
  datatype ReservationRequest = ReservationRequest(
    userId: Option<int>, roomId: string, deskId: string, startTime: string, endTime: string)

  /** A value of a JSON body; `JSON.stringify` writes a NaN number as `null`. */
  datatype JsonValue = JNumber(n: int) | JNull | JString(s: string)

  /** `JSON.stringify({ userId, roomId, deskId, startTime, endTime })`, as its key/value pairs in order. */
  function RequestBody(req: ReservationRequest): seq<(string, JsonValue)> {
    [("userId", if req.userId.Some? then JNumber(req.userId.value) else JNull),
     ("roomId", JString(req.roomId)),
     ("deskId", JString(req.deskId)),
     ("startTime", JString(req.startTime)),
     ("endTime", JString(req.endTime))]
  }

  /** The value of the first pair with `key`, as `JSON.parse` would read it back. */
  function BodyField(body: seq<(string, JsonValue)>, key: string): (r: Option<JsonValue>)
    ensures r.Some? <==> exists i :: 0 <= i < |body| && body[i].0 == key
  {
    if body == [] then None
    else if body[0].0 == key then Some(body[0].1)
    else BodyField(body[1..], key)
  }

  /** The request a posted body stands for: the five fields with a number or `null` id and string texts. */
  function RequestOf(body: seq<(string, JsonValue)>): Option<ReservationRequest> {
    var userId := BodyField(body, "userId");
    var roomId := BodyField(body, "roomId");
    var deskId := BodyField(body, "deskId");
    var startTime := BodyField(body, "startTime");
    var endTime := BodyField(body, "endTime");
    if userId.Some? && (userId.value.JNumber? || userId.value.JNull?)
       && roomId.Some? && roomId.value.JString? && deskId.Some? && deskId.value.JString?
       && startTime.Some? && startTime.value.JString? && endTime.Some? && endTime.value.JString?
    then
      Some(ReservationRequest(if userId.value.JNumber? then Some(userId.value.n) else None,
                              roomId.value.s, deskId.value.s, startTime.value.s, endTime.value.s))
    else None
  }

  /** The body `createReservation` posts reads back as exactly the request it was built from. */
  lemma RequestBodyRoundTrip(req: ReservationRequest)
    ensures RequestOf(RequestBody(req)) == Some(req)
  {
    var b := RequestBody(req);
    FieldAt(b, 0, "userId");
    FieldAt(b, 1, "roomId");
    FieldAt(b, 2, "deskId");
    FieldAt(b, 3, "startTime");
    FieldAt(b, 4, "endTime");
  }

  /** The first pair with a key is the one read back. */
  lemma {:induction false} FieldAt(body: seq<(string, JsonValue)>, i: nat, key: string)
    requires i < |body| && body[i].0 == key
    requires forall j :: 0 <= j < i ==> body[j].0 != key
    ensures BodyField(body, key) == Some(body[i].1)
  {
    if i > 0 {
      FieldAt(body[1..], i - 1, key);
    }
  }

  /**
   * `createReservation`: posts the request's five fields through
   * `enhancedFetch` and resolves with the response. Every response that
   * `enhancedFetch` resolves with is 2xx, so the function's own `!res.ok`
   * branch is unreachable and every failure is the one `enhancedFetch`
   * rejected with.
   */
  method CreateReservation(req: ReservationRequest, t: Transport)
    returns (body: seq<(string, JsonValue)>, r: Result<Response, FetchError>)
    ensures RequestOf(body) == Some(req)
    ensures r.Success? <==> t.Responded? && IsOk(t.response.status)
    ensures r.Success? ==> r.value == t.response && IsOk(r.value.status)
    ensures t.Responded? && !IsOk(t.response.status) ==> r == Failure(HttpFailure(t.response))
    ensures t.Threw? ==> r == Failure(Rethrown(t.thrown))
  {
    body := RequestBody(req);
    RequestBodyRoundTrip(req);
    var res := EnhancedFetch(t);
    if res.Failure? {
      r := Failure(res.error);
      return;
    }
    if !IsOk(res.value.status) {
      // the `API {status} – {details}` error: `enhancedFetch` never resolves with such a response
      assert false;
    }
    r := Success(res.value);
  }

  /** The client-side fallback of the room-pending query: overlapping and `status === 'PENDING'`. */
  function RoomPendingFallback(all: seq<Reservation>, s: int, e: int): (kept: seq<Reservation>)
    ensures forall r :: r in kept <==> r in all && Overlaps(r.startMs, r.endMs, s, e) && r.status == "PENDING"
  {
    Filter(all, (r: Reservation) => Overlaps(r.startMs, r.endMs, s, e) && r.status == "PENDING")
  }

  /**
   * `fetchRoomPendingReservations`: the endpoint's answer; when it fails, the
   * room's reservations filtered on the client; when that fails too, `[]`.
   */
  function FetchRoomPending(primary: Option<seq<Reservation>>, roomList: Option<seq<Reservation>>, s: int, e: int)
    : (r: seq<Reservation>)
    ensures primary.Some? ==> r == primary.value
    ensures primary.None? && roomList.None? ==> r == []
    ensures primary.None? && roomList.Some? ==>
      && (forall i :: 0 <= i < |r| ==> r[i] in roomList.value && r[i].status == "PENDING"
                                       && Overlaps(r[i].startMs, r[i].endMs, s, e))
      && (forall i :: (0 <= i < |roomList.value| && roomList.value[i].status == "PENDING"
                       && Overlaps(roomList.value[i].startMs, roomList.value[i].endMs, s, e)) ==> roomList.value[i] in r)
  {
    match primary
    case Some(list) => list
    case None => if roomList.Some? then RoomPendingFallback(roomList.value, s, e) else []
  }

  /**
   * `fetchPendingReservationsForTimeSlot`: the endpoint's answer; when it
   * fails, the system's active reservations that overlap the window (no status
   * filter); when that fails too, `[]`.
   */
  function FetchTimeSlotPending(primary: Option<seq<Reservation>>, activeList: Option<seq<Reservation>>, s: int, e: int)
    : (r: seq<Reservation>)
    ensures primary.Some? ==> r == primary.value
    ensures primary.None? && activeList.None? ==> r == []
    ensures primary.None? && activeList.Some? ==>
      && (forall i :: 0 <= i < |r| ==> r[i] in activeList.value && Overlaps(r[i].startMs, r[i].endMs, s, e))
      && (forall i :: (0 <= i < |activeList.value|
                       && Overlaps(activeList.value[i].startMs, activeList.value[i].endMs, s, e)) ==> activeList.value[i] in r)
  {
    match primary
    case Some(list) => list
    case None => if activeList.Some? then OverlappingWindow(activeList.value, s, e) else []
  }

  /**
   * How a pending query's own endpoint went: it answered with a list, the
   * request was rejected, or it answered 2xx with a body `res.json()` cannot
   * parse. The last is the only way the query itself rejects: `return
   * res.json()` hands the parse back without awaiting it, so the function's
   * `catch` never sees that rejection.
   */
  datatype EndpointOutcome = Answered(list: seq<Reservation>) | Unavailable | Unparsable

  /** What the `try` branch gets from the endpoint: its list, or nothing when it failed. */
  function PrimaryOf(endpoint: EndpointOutcome): Option<seq<Reservation>> {
    if endpoint.Answered? then Some(endpoint.list) else None
  }

  /**
   * What `Promise.allSettled` records for `fetchRoomPendingReservations`:
   * fulfilled, with the endpoint's list or the fallback's, unless the
   * endpoint's body did not parse.
   */
  function RoomPendingSettled(endpoint: EndpointOutcome, roomList: Option<seq<Reservation>>, s: int, e: int)
    : (r: Option<seq<Reservation>>)
    ensures r.None? <==> endpoint.Unparsable?
    ensures endpoint.Answered? ==> r == Some(endpoint.list)
    ensures endpoint.Unavailable? ==> r == Some(FetchRoomPending(None, roomList, s, e))
  {
    if endpoint.Unparsable? then None else Some(FetchRoomPending(PrimaryOf(endpoint), roomList, s, e))
  }

  /**
   * The room-pending query as its callers evidently expect it: the same
   * answer whenever some request got one, and a failure instead of `[]`
   * when neither the endpoint nor the room's list answered.
   */
  function RoomPendingReported(endpoint: EndpointOutcome, roomList: Option<seq<Reservation>>, s: int, e: int)
    : (r: Option<seq<Reservation>>)
    ensures r.Some? <==> endpoint.Answered? || (endpoint.Unavailable? && roomList.Some?)
    ensures r.Some? ==> r == RoomPendingSettled(endpoint, roomList, s, e)
  {
    if endpoint.Unavailable? && roomList.None? then None else RoomPendingSettled(endpoint, roomList, s, e)
  }

  /** What `Promise.allSettled` records for `fetchPendingReservationsForTimeSlot`, on the same terms. */
  function TimeSlotPendingSettled(endpoint: EndpointOutcome, activeList: Option<seq<Reservation>>, s: int, e: int)
    : (r: Option<seq<Reservation>>)
    ensures r.None? <==> endpoint.Unparsable?
    ensures endpoint.Answered? ==> r == Some(endpoint.list)
    ensures endpoint.Unavailable? ==> r == Some(FetchTimeSlotPending(None, activeList, s, e))
  {
    if endpoint.Unparsable? then None else Some(FetchTimeSlotPending(PrimaryOf(endpoint), activeList, s, e))
  }

  /** When the endpoint and its fallback both fail, the query is still fulfilled, with no reservations. */
  lemma TotalOutageSettlesEmpty(s: int, e: int)
    ensures RoomPendingSettled(Unavailable, None, s, e) == Some([])
    ensures TimeSlotPendingSettled(Unavailable, None, s, e) == Some([])
  {
  }

  /** The room fallback keeps a subset of what the time-slot fallback would keep from the same list. */
  lemma RoomFallbackWithinTimeSlotFallback(all: seq<Reservation>, s: int, e: int)
    ensures forall i :: 0 <= i < |RoomPendingFallback(all, s, e)| ==> RoomPendingFallback(all, s, e)[i] in OverlappingWindow(all, s, e)
  {
  }

  /** A notification as the backend returns it. */
  datatype Notification = Notification(
    id: int, message: string, kind: string, createdAt: string, isRead: bool,
    reservationId: Option<int>, roomId: Option<string>)

  /** The query string of `fetchUserNotifications`. */
  function NotificationQuery(isRead: Option<bool>): (q: string)
    ensures q == "" <==> isRead.None?
    ensures isRead.Some? ==> StartsWith(q, "?isRead=")
  {
    match isRead
    case None => ""
    case Some(b) => "?isRead=" + (if b then "true" else "false")
  }

  /** Reads the filter back from a query string built by `NotificationQuery`. */
  function ParseNotificationQuery(q: string): Option<bool> {
    if q == "" then None else Some(q == "?isRead=true")
  }

  /** The query string determines the filter it was built from. */
  lemma NotificationQueryRoundTrip(isRead: Option<bool>)
    ensures ParseNotificationQuery(NotificationQuery(isRead)) == isRead
  {
    if isRead == Some(false) {
      assert NotificationQuery(isRead) != "?isRead=true" by {
        assert NotificationQuery(isRead)[8] == 'f';
      }
    }
  }

  /** `fetchUserNotifications` swallows a failure into `[]`. */
  function FetchNotifications(outcome: Option<seq<Notification>>): (r: seq<Notification>)
    ensures outcome.None? ==> r == []
    ensures outcome.Some? ==> r == outcome.value
  {
    outcome.GetOr([])
  }

  /**
   * `markNotificationAsRead`, `markAllNotificationsAsRead` and
   * `deleteNotification`: the request goes through `enhancedFetch` and
   * whatever that rejects with is caught, so the call always resolves.
   */
  method NotificationUpdate(t: Transport) returns (r: Result<(), FetchError>)
    ensures r == Success(())
  {
    var outcome := EnhancedFetch(t);
    // a rejection is logged and dropped; a response is ignored
    r := Success(());
  }

  /** `fetchUnreadNotificationCount` swallows a failure into 0. */
  function FetchUnreadCount(outcome: Option<int>): (r: int)
    ensures outcome.None? ==> r == 0
    ensures outcome.Some? ==> r == outcome.value
  {
    outcome.GetOr(0)
  }
}
