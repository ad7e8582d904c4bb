/** The client of the clinic's REST server (lib/api.ts): the base URL, the
    headers sent to the server, the request each endpoint makes and the
    error each one throws on a non-ok response. `fetch` is not modelled:
    the response of a request is a parameter. */
module Api {
  import opened Wrappers
  import opened Strings
  import opened Json
  import Booking

  const DefaultBaseUrl: string := "http://localhost:8000/api/v1"

  /** `NEXT_PUBLIC_API_URL || default`. */
  function BaseUrl(env: Option<string>): (r: string)
    ensures env.Some? && env.value != "" ==> r == env.value
    ensures env.None? || env.value == "" ==> r == DefaultBaseUrl
  {
    if env.Some? && env.value != "" then env.value else DefaultBaseUrl
  }

  // ----------------------------------------------------------------- headers

  const Accept: string := "Accept"
  const ContentType: string := "Content-Type"
  const AdminToken: string := "X-Admin-Token"
  const JsonMedia: string := "application/json"

  /** The headers of every request but the health check: the two JSON
      headers, plus the admin token exactly when one is configured and
      non-empty. */
  function AdminHeaderMap(token: Option<string>): (h: map<string, string>)
    ensures Accept in h && h[Accept] == JsonMedia
    ensures ContentType in h && h[ContentType] == JsonMedia
    ensures AdminToken in h <==> token.Some? && token.value != ""
    ensures AdminToken in h ==> h[AdminToken] == token.value
    ensures forall k :: k in h ==> k == Accept || k == ContentType || k == AdminToken
  {
    var base := map[Accept := JsonMedia, ContentType := JsonMedia];
    if token.Some? && token.value != "" then base[AdminToken := token.value] else base
  }

  /** `getAdminHeaders`: the record is built, then the token is added to it. */
  method AdminHeaders(token: Option<string>) returns (headers: map<string, string>)
    ensures headers == AdminHeaderMap(token)
  {
    headers := map[];
    headers := headers[Accept := JsonMedia];
    headers := headers[ContentType := JsonMedia];
    if token.Some? && token.value != "" {
      headers := headers[AdminToken := token.value];
    }
  }

  // --------------------------------------------------------------- endpoints

  datatype AppointmentStatus = Confirmed | Pending | Cancelled

  function StatusText(s: AppointmentStatus): string
  {
    match s
    case Confirmed => "confirmed"
    case Pending => "pending"
    case Cancelled => "cancelled"
  }

  /** The members of `api`, with the arguments each one takes; a request
      body is the parsed value that `JSON.stringify` sends. */
  datatype Endpoint =
    | HealthCheck
    | GetPatients
    | CreatePatient(data: Json)
    | GetPatient(id: string)
    | UpdatePatient(id: string, data: Json)
    | DeletePatient(id: string)
    | GetAppointments
    | CreateAppointment(data: Json)
    | GetAppointment(id: string)
    | UpdateAppointment(id: string, data: Json)
    | DeleteAppointment(id: string)
    | GetAppointmentsByStatus(status: AppointmentStatus)
    | GetBookedSlots(date: string)
    | VerifyAdmin

  /** The path after the base URL. Arguments are pasted in as they are:
      nothing is URL-encoded. */
  function Path(e: Endpoint): string
  {
    match e
    case HealthCheck => "/health"
    case GetPatients => "/patients"
    case CreatePatient(_) => "/patients"
    case GetPatient(id) => "/patients/" + id
    case UpdatePatient(id, _) => "/patients/" + id
    case DeletePatient(id) => "/patients/" + id
    case GetAppointments => "/appointments"
    case CreateAppointment(_) => "/appointments"
    case GetAppointment(id) => "/appointments/" + id
    case UpdateAppointment(id, _) => "/appointments/" + id
    case DeleteAppointment(id) => "/appointments/" + id
    case GetAppointmentsByStatus(s) => "/appointments/status/" + StatusText(s)
    case GetBookedSlots(date) => "/appointments/booked-slots?date=" + date
    case VerifyAdmin => "/verify-admin"
  }

  /** The HTTP method; `fetch` defaults to GET. */
  function Verb(e: Endpoint): string
  {
    match e
    case CreatePatient(_) => "POST"
    case CreateAppointment(_) => "POST"
    case VerifyAdmin => "POST"
    case UpdatePatient(_, _) => "PUT"
    case UpdateAppointment(_, _) => "PUT"
    case DeletePatient(_) => "DELETE"
    case DeleteAppointment(_) => "DELETE"
    case _ => "GET"
  }

  /** What `fetch` is given. `headers` is None when no options are passed. */
  datatype Request = Request(url: string, verb: string, headers: Option<map<string, string>>, body: Option<string>)

  function RequestFor(base: string, token: Option<string>, e: Endpoint): (r: Request)
    ensures r.url == base + Path(e) && r.verb == Verb(e)
    ensures r.headers.None? <==> e.HealthCheck?
    ensures r.headers.Some? ==> r.headers.value == AdminHeaderMap(token)
    ensures r.body.Some? <==> e.CreatePatient? || e.UpdatePatient? || e.CreateAppointment? || e.UpdateAppointment?
    ensures r.body.Some? ==> r.body.value == Stringify(e.data)
  {
    var headers := if e.HealthCheck? then None else Some(AdminHeaderMap(token));
    var body := if e.CreatePatient? || e.UpdatePatient? || e.CreateAppointment? || e.UpdateAppointment?
      then Some(Stringify(e.data)) else None;
    Request(base + Path(e), Verb(e), headers, body)
  }

  /** Every URL starts with the base, and the booked-slots URL ends with the
      date exactly as given. */
  lemma {:induction false} UrlShape(base: string, token: Option<string>, e: Endpoint)
    ensures StartsWith(RequestFor(base, token, e).url, base)
    ensures e.GetBookedSlots? ==>
      RequestFor(base, token, e).url == base + "/appointments/booked-slots?date=" + e.date
  {
    var url := RequestFor(base, token, e).url;
    assert url[..|base|] == base;
    if e.GetBookedSlots? {
      assert url == base + ("/appointments/booked-slots?date=" + e.date);
    }
  }

  // --------------------------------------------------------------- responses

  /** What a request gets back: whether the status is ok, and the body parsed
      as JSON (`Err` with the parser's message when it is not JSON). */
  datatype Response = Response(ok: bool, body: Result<Json>)

  /** The fixed message a non-ok response throws, for every endpoint but the
      two that read the error body. */
  function FixedFailure(e: Endpoint): string
  {
    match e
    case HealthCheck => "Health check failed"
    case GetPatients => "Failed to fetch patients"
    case CreatePatient(_) => "Failed to create patient"
    case GetPatient(_) => "Failed to fetch patient"
    case UpdatePatient(_, _) => "Failed to update patient"
    case DeletePatient(_) => "Failed to delete patient"
    case GetAppointments => "Failed to fetch appointments"
    case CreateAppointment(_) => "Failed to create appointment"
    case GetAppointment(_) => "Failed to fetch appointment"
    case UpdateAppointment(_, _) => "Failed to update appointment"
    case DeleteAppointment(_) => "Failed to delete appointment"
    case GetAppointmentsByStatus(_) => "Failed to fetch appointments by status"
    case GetBookedSlots(_) => "Failed to fetch booked slots"
    case VerifyAdmin => "Admin token verification failed"
  }

  /** `response.json().catch(() => ({}))`: an error body that is not JSON
      reads as an empty object. */
  function ErrorData(body: Result<Json>): Json
  {
    if body.Ok? then body.value else JObj([])
  }

  const NullMessageError: string := "Cannot read properties of null (reading 'message')"

  /** `errorData.message` when it is truthy, as `new Error` turns it into a
      string. `Err` is the TypeError of reading `.message` of `null`. */
  function MessageField(errorData: Json): Result<Option<string>>
  {
    if errorData.JNull? then Err(NullMessageError)
    else
      match Get(errorData, "message")
      case Some(m) => if Truthy(m) then Ok(Some(ToJsString(m))) else Ok(None)
      case None => Ok(None)
  }

  /** `errorData.message || JSON.stringify(errorData) || "Failed to create
      patient"`, the three operands as written. */
  function CreatePatientFailureAsWritten(body: Result<Json>): string
  {
    var errorData := ErrorData(body);
    match MessageField(errorData)
    case Err(m) => m
    case Ok(Some(m)) => m
    case Ok(None) =>
      var dump := Stringify(errorData);
      if dump != "" then dump else FixedFailure(CreatePatient(JNull))
  }

  /** The message of a non-ok response. */
  function FailureMessage(e: Endpoint, body: Result<Json>): string
  {
    match e
    case CreatePatient(_) => CreatePatientFailureAsWritten(body)
    case CreateAppointment(_) =>
      (match MessageField(ErrorData(body))
       case Err(m) => m
       case Ok(Some(m)) => m
       case Ok(None) => FixedFailure(e))
    case _ => FixedFailure(e)
  }

  /** The third operand of the `createPatient` chain is never reached:
      without a truthy `message` the error is the dump of the error body,
      which is never empty. The message is empty only when the server's
      `message` is an array that prints as "" (`String([])`). */
  lemma CreatePatientFallbackUnreachable(data: Json, body: Result<Json>)
    ensures MessageField(ErrorData(body)) == Ok(None) ==>
      FailureMessage(CreatePatient(data), body) == Stringify(ErrorData(body))
    ensures (forall m :: Get(ErrorData(body), "message") == Some(m) ==> !m.JArr?) ==>
      FailureMessage(CreatePatient(data), body) != ""
  {
    var errorData := ErrorData(body);
    StringifyNonEmpty(errorData);
    if MessageField(errorData).Ok? && MessageField(errorData).value.Some? {
      var m := Get(errorData, "message").value;
      if !m.JArr? {
        TruthyTextNonEmpty(m);
      }
    }
  }

  /** `String(v)` of a truthy parsed value other than an array is never
      empty. */
  lemma TruthyTextNonEmpty(v: Json)
    requires Truthy(v) && !v.JArr?
    ensures ToJsString(v) != ""
  {
  }

  /** `createAppointment` passes on the server's `message` when it has one
      and otherwise throws its fixed text. */
  lemma CreateAppointmentFailure(data: Json, body: Result<Json>)
    ensures MessageField(ErrorData(body)).Ok? && MessageField(ErrorData(body)).value.Some? ==>
      FailureMessage(CreateAppointment(data), body) == MessageField(ErrorData(body)).value.value
    ensures MessageField(ErrorData(body)) == Ok(None) ==>
      FailureMessage(CreateAppointment(data), body) == "Failed to create appointment"
  {
  }

  /** The other endpoints throw their fixed text whatever the error body. */
  lemma FixedFailureIgnoresBody(e: Endpoint, body: Result<Json>, other: Result<Json>)
    requires !e.CreatePatient? && !e.CreateAppointment?
    ensures FailureMessage(e, body) == FailureMessage(e, other) == FixedFailure(e)
  {
  }

  /** An endpoint call: a rejected `fetch` passes its error on, a non-ok
      response throws the endpoint's message, and an ok one yields the
      parsed body (or the parser's error). */
  function Call(e: Endpoint, response: Result<Response>): (r: Result<Json>)
    ensures response.Err? ==> r == Err(response.message)
    ensures response.Ok? && !response.value.ok ==> r == Err(FailureMessage(e, response.value.body))
    ensures response.Ok? && response.value.ok ==> r == response.value.body
  {
    match response
    case Err(m) => Err(m)
    case Ok(Response(ok, body)) => if ok then body else Err(FailureMessage(e, body))
  }

  /** A non-ok booked-slots response throws, so both wizards fall back to an
      empty booked list and offer every slot. */
  lemma BookedSlotsFailureFailsOpen(date: string, body: Result<Json>)
    ensures Call(GetBookedSlots(date), Ok(Response(false, body))) == Err("Failed to fetch booked slots")
    ensures Booking.SlotsReplyModelled(Call(GetBookedSlots(date), Ok(Response(false, body))))
    ensures Booking.BookedSlotsFrom(Call(GetBookedSlots(date), Ok(Response(false, body)))) == []
  {
  }
}
