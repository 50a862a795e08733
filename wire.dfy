/**
 * The JSON shapes the Flask backend sends and the TypeScript client reads:
 * slots, attendance rows and scan replies, and the status strings they carry.
 */
module Wire {
  import opened Wrappers

  /**
   * A class slot of slots.json. `groups` stands for `slot.get("groups", [])`;
   * `students` is the optional expected-students list (None when the key is absent).
   */
  datatype Slot = Slot(id: string, subject: string, time: string, groups: seq<string>, students: Option<seq<string>>)

  /**
   * One attendance row: a data record of subject_attendance/<subject>.csv read
   * through the header (date, slot, roll_no, status, timestamp), which is also
   * the client's AttendanceRecord.
   */
  datatype AttendanceRecord = AttendanceRecord(date: string, slot: string, rollNo: string, status: string, timestamp: string)

  /** A scan reply: `ok` is always present; the other keys may be absent. */
  datatype ScanResponse = ScanResponse(
    ok: bool,
    status: Option<string>,
    rollNo: Option<string>,
    distance: Option<real>,
    message: Option<string>)

  // Statuses set by scan_once.
  const VALID := "VALID"
  const FACE_MISMATCH := "FACE_MISMATCH"
  const INVALID_FORMAT := "INVALID_FORMAT"
  const NOT_PART_OF_CLASS := "NOT_PART_OF_CLASS"
  const NO_RECORD := "NO_RECORD"
  const NO_FACE := "NO_FACE"
  const TIMEOUT := "TIMEOUT"
  const CAMERA_ERROR := "CAMERA_ERROR"
  const ABORTED_BY_USER := "ABORTED_BY_USER"
  const INTERRUPTED := "INTERRUPTED"
  const ERROR := "ERROR"
  // Statuses set by the scan endpoint's group checks.
  const NOT_ENROLLED := "NOT_ENROLLED"
  const NO_GROUP := "NO_GROUP"
  const NOT_IN_ACTIVE_GROUP := "NOT_IN_ACTIVE_GROUP"
  // A status the attendance table colours but no backend code produces.
  const INVALID := "INVALID"

  // Replies of the admin, enrolment and slot endpoints. A field is None when
  // its key is absent from that reply.

  datatype LoginResponse = LoginResponse(ok: bool, token: Option<string>, message: Option<string>)

  datatype SlotsResponse = SlotsResponse(slots: seq<Slot>)

  datatype SetSlotResponse = SetSlotResponse(ok: bool, message: string, active: Option<Slot>)

  /** `{active_slot: ...}` when authorised (a null slot reads as None), `{ok, message}` otherwise. */
  datatype ActiveSlotResponse = ActiveSlotResponse(ok: Option<bool>, message: Option<string>, activeSlot: Option<Slot>)

  datatype AttendanceResponse = AttendanceResponse(
    ok: Option<bool>,
    message: Option<string>,
    subject: Option<string>,
    rows: Option<seq<AttendanceRecord>>)

  datatype EnrollResponse = EnrollResponse(ok: bool, message: string, rollNo: Option<string>)

  /** The scheme prefix of an Authorization header carrying a session token. */
  const BEARER := "Bearer "

  /**
   * Keyed string values in order: HTTP headers, a JSON object of strings,
   * request arguments. The client builds headers and bodies with one entry
   * per key, each spelled as the backend reads it.
   */
  type Fields = seq<(string, string)>

  /**
   * `request.args.get(key)`: the value of the first argument with that key.
   * For headers and JSON bodies with one entry per key it is also `.get(key)`.
   */
  function Lookup(fields: Fields, key: string): (r: Option<string>)
    ensures r.None? <==> forall i :: 0 <= i < |fields| ==> fields[i].0 != key
    ensures r.Some? ==> exists i :: 0 <= i < |fields| && fields[i] == (key, r.value) && forall j :: 0 <= j < i ==> fields[j].0 != key
  {
    if fields == [] then None
    else if fields[0].0 == key then Some(fields[0].1)
    else
      var r := Lookup(fields[1..], key);
      assert forall i :: 1 <= i < |fields| ==> fields[i] == fields[1..][i - 1];
      r
  }
}
