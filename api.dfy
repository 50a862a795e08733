/**
 * The browser client's ApiClient: the request each call sends (method, URL,
 * headers and JSON body of string values) and what it makes of the reply.
 */
module Api {
  import opened Wrappers
  import opened Wire
  import UriComponent

  const DEFAULT_API_BASE := "http://127.0.0.1:5000"

  /** `import.meta.env.VITE_API_BASE || default`: an unset or empty variable gives the default. */
  function ApiBase(env: Option<string>): (base: string)
    ensures env.Some? && env.value != "" ==> base == env.value
    ensures env.None? || env.value == "" ==> base == DEFAULT_API_BASE
  {
    if env.Some? && env.value != "" then env.value else DEFAULT_API_BASE
  }

  datatype HttpMethod = Get | Post

  /** A fetch call: the body is the JSON object sent, None for a request without a body. */
  datatype Request = Request(verb: HttpMethod, url: string, headers: Fields, body: Option<Fields>)

  /** The Authorization header value `Bearer ${token}`. */
  function AuthorizationValue(token: string): (v: string)
    ensures |v| == |BEARER| + |token| && v[..|BEARER|] == BEARER && v[|BEARER|..] == token
  {
    BEARER + token
  }

  const JSON_CONTENT := ("Content-Type", "application/json")

  /** JavaScript truthiness of an optional string: present and non-empty. */
  predicate Present(x: Option<string>) {
    x.Some? && x.value != ""
  }

  /** The query of getAttendance: the subject, then the date when there is one, each percent-encoded. */
  function AttendanceQuery(subject: string, date: Option<string>): (q: string)
    ensures !Present(date) ==> q == "subject=" + UriComponent.Encode(subject)
    ensures Present(date) ==> q == "subject=" + UriComponent.Encode(subject) + "&date=" + UriComponent.Encode(date.value)
  {
    var q := "subject=" + UriComponent.Encode(subject);
    if Present(date) then q + "&date=" + UriComponent.Encode(date.value) else q
  }

  /** scan's body: `{expected_slot_id}` for a present, non-empty id, `{}` otherwise. */
  function ScanBody(expectedSlotId: Option<string>): (body: Fields)
    ensures Present(expectedSlotId) ==> body == [("expected_slot_id", expectedSlotId.value)]
    ensures !Present(expectedSlotId) ==> body == []
    ensures Lookup(body, "expected_slot_id") == if Present(expectedSlotId) then expectedSlotId else None
  {
    if expectedSlotId.Some? && expectedSlotId.value != "" then [("expected_slot_id", expectedSlotId.value)] else []
  }

  datatype ApiClient = ApiClient(base: string) {

    function LoginRequest(password: string): (r: Request)
      ensures r.verb == Post && r.url == base + "/api/admin/login"
      ensures r.body == Some([("password", password)])
      ensures r.body.Some? && Lookup(r.body.value, "password") == Some(password)
    {
      Request(Post, base + "/api/admin/login", [JSON_CONTENT], Some([("password", password)]))
    }

    function SlotsRequest(): (r: Request)
      ensures r.verb == Get && r.url == base + "/api/slots" && r.body.None?
    {
      Request(Get, base + "/api/slots", [], None)
    }

    function SetActiveSlotRequest(slotId: string, token: string): (r: Request)
      ensures r.verb == Post && r.url == base + "/api/admin/set_slot"
      ensures Lookup(r.headers, "Authorization") == Some(AuthorizationValue(token))
      ensures r.body == Some([("slot_id", slotId)])
      ensures r.body.Some? && Lookup(r.body.value, "slot_id") == Some(slotId)
    {
      Request(Post, base + "/api/admin/set_slot",
              [JSON_CONTENT, ("Authorization", AuthorizationValue(token))], Some([("slot_id", slotId)]))
    }

    function ActiveSlotRequest(token: string): (r: Request)
      ensures r.verb == Get && r.url == base + "/api/admin/active_slot" && r.body.None?
      ensures Lookup(r.headers, "Authorization") == Some(AuthorizationValue(token))
    {
      Request(Get, base + "/api/admin/active_slot", [("Authorization", AuthorizationValue(token))], None)
    }

    function AttendanceRequest(subject: string, date: Option<string>, token: string): (r: Request)
      ensures r.verb == Get && r.url == base + "/api/admin/attendance?" + AttendanceQuery(subject, date)
      ensures r.body.None?
      ensures Lookup(r.headers, "Authorization") == Some(AuthorizationValue(token))
    {
      Request(Get, base + "/api/admin/attendance?" + AttendanceQuery(subject, date),
              [("Authorization", AuthorizationValue(token))], None)
    }

    function EnrollRequest(rollNo: string): (r: Request)
      ensures r.verb == Post && r.url == base + "/api/enroll"
      ensures r.body == Some([("roll_no", rollNo)])
      ensures r.body.Some? && Lookup(r.body.value, "roll_no") == Some(rollNo)
    {
      Request(Post, base + "/api/enroll", [JSON_CONTENT], Some([("roll_no", rollNo)]))
    }

    function ScanRequest(expectedSlotId: Option<string>): (r: Request)
      ensures r.verb == Post && r.url == base + "/api/scan"
      ensures r.body == Some(ScanBody(expectedSlotId))
    {
      Request(Post, base + "/api/scan", [JSON_CONTENT], Some(ScanBody(expectedSlotId)))
    }
  }

  /** getSlots returns `data.slots`. */
  function SlotsOf(data: SlotsResponse): (slots: seq<Slot>)
    ensures slots == data.slots
  {
    data.slots
  }

  /** getAttendance returns `data.rows`, which is undefined (None) in an error reply. */
  function RowsOf(data: AttendanceResponse): (rows: Option<seq<AttendanceRecord>>)
    ensures rows == data.rows
  {
    data.rows
  }
}
