/**
 * The Flask backend of backend/app.py: admin sessions, the single active slot,
 * the per-subject attendance logs, and the request handlers over them.
 *
 * The slot list (slots.json) and the group table (groups.json) are read-only
 * inputs; each subject's CSV file is a sequence of lines, absent until the
 * first row is written. Clock readings, the uuid4 token and the camera are
 * parameters.
 */
module App {
  import opened Wrappers
  import opened Text
  import opened Wire
  import opened FaceData
  import BarcodeScanner
  import FaceScan

  const DEFAULT_ADMIN_PASSWORD := "adminpass"
  /** The timeout the scan endpoint passes to scan_once, in seconds. */
  const SCAN_TIMEOUT: real := 60.0

  /** The text form of a uuid4 token: 36 characters. */
  type Uuid = s: string | |s| == 36 witness "00000000-0000-0000-0000-000000000000"

  /** GROUPS_TO_ROLLS in its JSON order: group name and its roll numbers. */
  type GroupTable = seq<(string, seq<string>)>

  // ---- Slots ----

  /** A slot at index k is the first whose id equals `slotId`. */
  ghost predicate FirstWithId(slots: seq<Slot>, slotId: Option<string>, k: int) {
    && 0 <= k < |slots| && Some(slots[k].id) == slotId
    && forall j :: 0 <= j < k ==> Some(slots[j].id) != slotId
  }

  /** The slot find_slot_by_id returns: the first with a matching id, or None. */
  function SlotWithId(slots: seq<Slot>, slotId: Option<string>): Option<Slot> {
    if slots == [] then None
    else if Some(slots[0].id) == slotId then Some(slots[0])
    else SlotWithId(slots[1..], slotId)
  }

  /** SlotWithId is None exactly when no id matches, and otherwise the first match. */
  lemma {:induction false} SlotWithIdIsFirst(slots: seq<Slot>, slotId: Option<string>)
    ensures var r := SlotWithId(slots, slotId);
      && (r.None? <==> forall k :: 0 <= k < |slots| ==> Some(slots[k].id) != slotId)
      && (r.Some? ==> exists k :: FirstWithId(slots, slotId, k) && slots[k] == r.value)
  {
    if slots == [] {
    } else if Some(slots[0].id) == slotId {
      assert FirstWithId(slots, slotId, 0);
    } else {
      SlotWithIdIsFirst(slots[1..], slotId);
      var r := SlotWithId(slots[1..], slotId);
      assert forall k :: 0 < k < |slots| ==> slots[k] == slots[1..][k - 1];
      if r.Some? {
        var k :| FirstWithId(slots[1..], slotId, k) && slots[1..][k] == r.value;
        assert FirstWithId(slots, slotId, k + 1);
      }
    }
  }

  /** find_slot_by_id: scan the slot list and return the first slot with that id. */
  method FindSlotById(slots: seq<Slot>, slotId: Option<string>) returns (r: Option<Slot>)
    ensures r == SlotWithId(slots, slotId)
  {
    var i := 0;
    while i < |slots|
      invariant 0 <= i <= |slots|
      invariant SlotWithId(slots[i..], slotId) == SlotWithId(slots, slotId)
    {
      assert slots[i..][1..] == slots[i + 1..];
      if Some(slots[i].id) == slotId {
        return Some(slots[i]);
      }
      i := i + 1;
    }
    return None;
  }

  // ---- Groups ----

  /** The entry at index k is the first group whose roll list holds `rollNo`. */
  ghost predicate FirstGroupAt(groups: GroupTable, rollNo: string, k: int) {
    && 0 <= k < |groups| && rollNo in groups[k].1
    && forall j :: 0 <= j < k ==> rollNo !in groups[j].1
  }

  /** The group the scan endpoint picks: the first entry listing the roll number. */
  function GroupOf(groups: GroupTable, rollNo: string): Option<string> {
    if groups == [] then None
    else if rollNo in groups[0].1 then Some(groups[0].0)
    else GroupOf(groups[1..], rollNo)
  }

  /** GroupOf is None exactly when no group lists the roll, and otherwise the first that does. */
  lemma {:induction false} GroupOfIsFirst(groups: GroupTable, rollNo: string)
    ensures var r := GroupOf(groups, rollNo);
      && (r.None? <==> forall k :: 0 <= k < |groups| ==> rollNo !in groups[k].1)
      && (r.Some? ==> exists k :: FirstGroupAt(groups, rollNo, k) && groups[k].0 == r.value)
  {
    if groups == [] {
    } else if rollNo in groups[0].1 {
      assert FirstGroupAt(groups, rollNo, 0);
    } else {
      GroupOfIsFirst(groups[1..], rollNo);
      var r := GroupOf(groups[1..], rollNo);
      assert forall k :: 0 < k < |groups| ==> groups[k] == groups[1..][k - 1];
      if r.Some? {
        var k :| FirstGroupAt(groups[1..], rollNo, k) && groups[1..][k].0 == r.value;
        assert FirstGroupAt(groups, rollNo, k + 1);
      }
    }
  }

  /** The loop over GROUPS_TO_ROLLS that stops at the first group holding the roll number. */
  method FindGroup(groups: GroupTable, rollNo: string) returns (g: Option<string>)
    ensures g == GroupOf(groups, rollNo)
  {
    g := None;
    var i := 0;
    while i < |groups|
      invariant 0 <= i <= |groups|
      invariant GroupOf(groups[i..], rollNo) == GroupOf(groups, rollNo)
    {
      assert groups[i..][1..] == groups[i + 1..];
      if rollNo in groups[i].1 {
        g := Some(groups[i].0);
        break;
      }
      i := i + 1;
    }
  }

  // ---- Sessions ----

  /**
   * check_token: the token of an Authorization header `Bearer <token>`
   * (everything after the first space) when it is a session key.
   */
  function CheckToken(auth: string, sessions: map<string, string>): (r: Option<string>)
    ensures r.Some? <==> BEARER <= auth && auth[|BEARER|..] in sessions
    ensures r.Some? ==> r.value == auth[|BEARER|..]
  {
    if BEARER <= auth then
      assert auth == BEARER + auth[|BEARER|..];
      AfterFirstSpaceOfPrefix(BEARER, auth[|BEARER|..]);
      match AfterFirstSpace(auth)
      case Some(token) => if token in sessions then Some(token) else None
      case None => None
    else None
  }

  // ---- Attendance logs ----

  /** A line of a subject's CSV file: the header or a data row. */
  datatype CsvLine = HeaderLine | DataLine(record: AttendanceRecord)

  /** A file written only by append_attendance: the header, then data rows. */
  ghost predicate WellFormedLog(lines: seq<CsvLine>) {
    && |lines| >= 1 && lines[0] == HeaderLine
    && forall i :: 1 <= i < |lines| ==> lines[i].DataLine?
  }

  /** What csv.DictReader yields: the data rows after the header line, in order. */
  function Records(lines: seq<CsvLine>): (rs: seq<AttendanceRecord>)
    requires WellFormedLog(lines)
    ensures |rs| == |lines| - 1
    ensures forall i :: 0 <= i < |rs| ==> lines[i + 1] == DataLine(rs[i])
  {
    seq(|lines| - 1, i requires 0 <= i < |lines| - 1 => lines[i + 1].record)
  }

  /**
   * append_attendance on the file's current lines (None when it does not
   * exist): the header is written only for a new file, then the row.
   */
  function AppendRow(file: Option<seq<CsvLine>>, row: AttendanceRecord): (lines: seq<CsvLine>)
    requires file.Some? ==> WellFormedLog(file.value)
    ensures WellFormedLog(lines)
    ensures Records(lines) == (if file.Some? then Records(file.value) else []) + [row]
    ensures file.Some? ==> lines[..|file.value|] == file.value
  {
    var lines := (if file.Some? then file.value else [HeaderLine]) + [DataLine(row)];
    assert Records(lines) == (if file.Some? then Records(file.value) else []) + [row];
    lines
  }

  /** The date filter of the attendance endpoint: an absent or empty date keeps every row. */
  predicate OnDate(r: AttendanceRecord, date: Option<string>) {
    date.None? || date.value == "" || r.date == date.value
  }

  /** The rows kept by the filter, in file order. */
  function Filtered(rows: seq<AttendanceRecord>, date: Option<string>): seq<AttendanceRecord> {
    if rows == [] then []
    else Filtered(rows[..|rows| - 1], date) + (if OnDate(rows[|rows| - 1], date) then [rows[|rows| - 1]] else [])
  }

  /** The read loop of the attendance endpoint: skip rows of other dates, keep the rest in order. */
  method FilterRows(rows: seq<AttendanceRecord>, date: Option<string>) returns (kept: seq<AttendanceRecord>)
    ensures kept == Filtered(rows, date)
  {
    kept := [];
    var i := 0;
    while i < |rows|
      invariant 0 <= i <= |rows|
      invariant kept == Filtered(rows[..i], date)
    {
      assert rows[..i + 1][..i] == rows[..i];
      if date.Some? && date.value != "" && rows[i].date != date.value {
        i := i + 1;
        continue;
      }
      kept := kept + [rows[i]];
      i := i + 1;
    }
    assert rows[..i] == rows;
  }

  /** Filtering commutes with concatenation: the kept rows keep their relative order. */
  lemma {:induction false} FilteredAppend(a: seq<AttendanceRecord>, b: seq<AttendanceRecord>, date: Option<string>)
    ensures Filtered(a + b, date) == Filtered(a, date) + Filtered(b, date)
    decreases |b|
  {
    if b != [] {
      var b' := b[..|b| - 1];
      assert (a + b)[..|a + b| - 1] == a + b';
      FilteredAppend(a, b', date);
    } else {
      assert a + b == a;
    }
  }

  /** A row is kept exactly when it is in the file and on the requested date. */
  lemma {:induction false} FilteredMembers(rows: seq<AttendanceRecord>, date: Option<string>, x: AttendanceRecord)
    ensures x in Filtered(rows, date) <==> x in rows && OnDate(x, date)
    decreases |rows|
  {
    if rows != [] {
      var init := rows[..|rows| - 1];
      FilteredMembers(init, date, x);
      assert rows == init + [rows[|rows| - 1]];
    }
  }

  /** With no date (absent or empty) the filter keeps every row. */
  lemma {:induction false} FilteredWithoutDate(rows: seq<AttendanceRecord>, date: Option<string>)
    requires date.None? || date.value == ""
    ensures Filtered(rows, date) == rows
    decreases |rows|
  {
    if rows != [] {
      FilteredWithoutDate(rows[..|rows| - 1], date);
    }
  }

  // ---- Scan post-processing ----

  /** The slot a scan runs against: the requested one if an id is given, else the active one. */
  function ChosenSlot(slots: seq<Slot>, expectedSlotId: Option<string>, active: Option<Slot>): (r: Option<Slot>)
    ensures expectedSlotId.Some? && expectedSlotId.value != "" ==> r == SlotWithId(slots, expectedSlotId)
    ensures expectedSlotId.None? || expectedSlotId.value == "" ==> r == active
  {
    if expectedSlotId.Some? && expectedSlotId.value != "" then SlotWithId(slots, expectedSlotId) else active
  }

  /**
   * The group checks of the scan endpoint, which rewrite the scanner's result
   * when it carries a roll number: NOT_ENROLLED when the roll is missing from
   * `ok_rolls` (defaulting to the roll itself), NO_GROUP when no group (or a
   * group named "") lists it, NOT_IN_ACTIVE_GROUP when the slot does not list
   * that group. `group` is the GroupOf the roll number.
   */
  function PostProcess(scan: ScanResponse, okRolls: Option<seq<string>>, group: Option<string>, slot: Slot): (r: ScanResponse)
    ensures r.rollNo == scan.rollNo && r.distance == scan.distance && r.message == scan.message
    ensures r.ok ==> scan.ok
    ensures scan.rollNo.None? ==> r == scan
    ensures scan.rollNo.Some? && GroupChecksPass(scan.rollNo.value, okRolls, group, slot) ==> r == scan
    ensures scan.rollNo.Some? && !GroupChecksPass(scan.rollNo.value, okRolls, group, slot) ==>
      !r.ok && r.status == Some(StatusFor(scan.rollNo.value, okRolls, group, slot))
    ensures okRolls.None? && scan.status != Some(NOT_ENROLLED) ==> r.status != Some(NOT_ENROLLED)
  {
    if scan.rollNo.None? then scan
    else
      var roll := scan.rollNo.value;
      if roll !in okRolls.GetOr([roll]) then scan.(ok := false, status := Some(NOT_ENROLLED))
      else if group.None? || group.value == "" then scan.(ok := false, status := Some(NO_GROUP))
      else if group.value !in slot.groups then scan.(ok := false, status := Some(NOT_IN_ACTIVE_GROUP))
      else scan
  }

  /** The roll is in `ok_rolls`, has a group with a non-empty name, and the slot lists that group. */
  predicate GroupChecksPass(roll: string, okRolls: Option<seq<string>>, group: Option<string>, slot: Slot) {
    roll in okRolls.GetOr([roll]) && group.Some? && group.value != "" && group.value in slot.groups
  }

  /** The status the first failing group check writes. */
  function StatusFor(roll: string, okRolls: Option<seq<string>>, group: Option<string>, slot: Slot): string {
    if roll !in okRolls.GetOr([roll]) then NOT_ENROLLED
    else if group.None? || group.value == "" then NO_GROUP
    else NOT_IN_ACTIVE_GROUP
  }

  const NoActiveSlot := ScanResponse(false, None, None, None, Some("No active slot"))

  // ---- The server ----

  class Server {
    const adminPassword: string
    const slots: seq<Slot>
    const groups: GroupTable
    var sessions: map<string, string>   // admin_sessions: token -> login time
    var activeSlot: Option<Slot>
    var logs: map<string, seq<CsvLine>>  // subject -> lines of its CSV file

    ghost predicate Valid()
      reads this
    {
      && (forall subject :: subject in logs ==> WellFormedLog(logs[subject]))
      && (activeSlot.Some? ==> activeSlot.value in slots)
    }

    /** Start-up: ADMIN_PASSWORD from the environment or "adminpass", no sessions, no active slot. */
    constructor (envPassword: Option<string>, slots: seq<Slot>, groups: GroupTable, logs: map<string, seq<CsvLine>>)
      requires forall subject :: subject in logs ==> WellFormedLog(logs[subject])
      ensures Valid()
      ensures adminPassword == envPassword.GetOr(DEFAULT_ADMIN_PASSWORD)
      ensures this.slots == slots && this.groups == groups && this.logs == logs
      ensures sessions == map[] && activeSlot == None
    {
      adminPassword := envPassword.GetOr(DEFAULT_ADMIN_PASSWORD);
      this.slots := slots;
      this.groups := groups;
      this.logs := logs;
      sessions := map[];
      activeSlot := None;
    }

    /** `if not token`: check_token finds a session key, and it is not the empty string. */
    predicate Authorized(auth: string)
      reads this
    {
      var t := CheckToken(auth, sessions);
      t.Some? && t.value != ""
    }

    /** GET /api/slots. */
    function GetSlots(): (r: SlotsResponse)
      ensures r.slots == slots
    {
      SlotsResponse(slots)
    }

    /**
     * POST /api/admin/login: a wrong (or missing) password changes nothing;
     * the right one stores one new session under the fresh token.
     */
    method Login(password: Option<string>, freshToken: Uuid, now: string) returns (r: LoginResponse)
      requires Valid()
      requires freshToken !in sessions  // uuid4 gives a token not in use
      modifies this`sessions
      ensures Valid()
      ensures password != Some(adminPassword) ==>
        r == LoginResponse(false, None, Some("Invalid password")) && sessions == old(sessions)
      ensures password == Some(adminPassword) ==>
        r == LoginResponse(true, Some(freshToken), None) && sessions == old(sessions)[freshToken := now]
      ensures r.ok ==> |sessions| == |old(sessions)| + 1 && Authorized(BEARER + freshToken)
    {
      if password != Some(adminPassword) {
        return LoginResponse(false, None, Some("Invalid password"));
      }
      sessions := sessions[freshToken := now];
      assert (BEARER + freshToken)[|BEARER|..] == freshToken;
      return LoginResponse(true, Some(freshToken), None);
    }

    /** GET /api/admin/active_slot. */
    function GetActiveSlot(auth: string): (r: ActiveSlotResponse)
      reads this
      ensures Authorized(auth) ==> r == ActiveSlotResponse(None, None, activeSlot)
      ensures !Authorized(auth) ==> r.ok == Some(false) && r.activeSlot.None?
    {
      if !Authorized(auth) then ActiveSlotResponse(Some(false), Some("Unauthorized"), None)
      else ActiveSlotResponse(None, None, activeSlot)
    }

    /**
     * POST /api/admin/set_slot: with a valid token and a known slot id the
     * active slot becomes the first slot with that id, which is returned;
     * otherwise nothing changes.
     */
    method SetSlot(auth: string, slotId: Option<string>) returns (r: SetSlotResponse)
      requires Valid()
      modifies this`activeSlot
      ensures Valid()
      ensures !Authorized(auth) ==> r == SetSlotResponse(false, "Unauthorized", None) && activeSlot == old(activeSlot)
      ensures Authorized(auth) && SlotWithId(slots, slotId).None? ==>
        r == SetSlotResponse(false, "Slot not found", None) && activeSlot == old(activeSlot)
      ensures Authorized(auth) && SlotWithId(slots, slotId).Some? ==>
        r == SetSlotResponse(true, "Active slot set", SlotWithId(slots, slotId)) && activeSlot == r.active
      ensures r.ok ==> GetActiveSlot(auth) == ActiveSlotResponse(None, None, r.active)
    {
      if !Authorized(auth) {
        return SetSlotResponse(false, "Unauthorized", None);
      }
      var slot := FindSlotById(slots, slotId);
      if slot.None? {
        return SetSlotResponse(false, "Slot not found", None);
      }
      SlotWithIdIsFirst(slots, slotId);
      ghost var k :| FirstWithId(slots, slotId, k) && slots[k] == slot.value;
      activeSlot := slot;
      return SetSlotResponse(true, "Active slot set", slot);
    }

    /**
     * GET /api/admin/attendance: a missing subject is an error, a subject
     * without a file has no rows, otherwise the file's rows in order, kept
     * when they are on the requested date (all of them without a date).
     */
    method Attendance(auth: string, subject: Option<string>, date: Option<string>) returns (r: AttendanceResponse)
      requires Valid()
      ensures !Authorized(auth) ==> r == AttendanceResponse(Some(false), Some("Unauthorized"), None, None)
      ensures Authorized(auth) && (subject.None? || subject.value == "") ==>
        r == AttendanceResponse(Some(false), Some("subject query param required"), None, None)
      ensures Authorized(auth) && subject.Some? && subject.value != "" ==>
        && r.ok.None? && r.subject == subject && r.rows.Some?
        && (subject.value !in logs ==> r.rows.value == [])
        && (subject.value in logs ==> r.rows.value == Filtered(Records(logs[subject.value]), date))
    {
      if !Authorized(auth) {
        return AttendanceResponse(Some(false), Some("Unauthorized"), None, None);
      }
      if subject.None? || subject.value == "" {
        return AttendanceResponse(Some(false), Some("subject query param required"), None, None);
      }
      if subject.value !in logs {
        return AttendanceResponse(None, None, subject, Some([]));
      }
      var rows := FilterRows(Records(logs[subject.value]), date);
      return AttendanceResponse(None, None, subject, Some(rows));
    }

    /** POST /api/enroll: a missing or empty roll number is refused; otherwise enroll_student_api. */
    method Enroll(rollNo: Option<string>, faces: FaceScan.FaceDatabase, captured: Option<Embedding>)
      returns (r: EnrollResponse)
      modifies faces
      ensures rollNo.None? || rollNo.value == "" ==>
        r == EnrollResponse(false, "roll_no required", None) && faces.file == old(faces.file)
      ensures rollNo.Some? && rollNo.value != "" ==>
        && r.rollNo == rollNo && (r.ok <==> FaceScan.Captured(captured))
        && faces.file == if r.ok then Stored(Load(old(faces.file))[rollNo.value := captured.value]) else old(faces.file)
    {
      if rollNo.None? || rollNo.value == "" {
        return EnrollResponse(false, "roll_no required", None);
      }
      r := faces.EnrollStudentApi(rollNo.value, captured);
    }

    /**
     * POST /api/scan: pick the slot (no fallback to the active slot when an
     * id is given), run the scanner with the slot's student list, apply the
     * group checks, and log one row exactly when the result has a roll number.
     */
    method Scan(expectedSlotId: Option<string>, camera: BarcodeScanner.Camera, faceFile: DbFile,
                today: string, now: string) returns (r: ScanResponse)
      requires Valid()
      modifies this`logs
      ensures Valid()
      ensures ChosenSlot(slots, expectedSlotId, activeSlot).None? ==> r == NoActiveSlot && logs == old(logs)
      ensures ChosenSlot(slots, expectedSlotId, activeSlot).Some? ==>
        var slot := ChosenSlot(slots, expectedSlotId, activeSlot).value;
        var scanned := BarcodeScanner.Scan(slot.students, SCAN_TIMEOUT, camera, faceFile);
        && r == PostProcess(scanned, None, if scanned.rollNo.Some? then GroupOf(groups, scanned.rollNo.value) else None, slot)
        && r.status != Some(NOT_ENROLLED)
        && logs == if r.rollNo.None? then old(logs)
                   else old(logs)[slot.subject := AppendRow(
                     if slot.subject in old(logs) then Some(old(logs)[slot.subject]) else None,
                     AttendanceRecord(today, slot.time, r.rollNo.value, r.status.GetOr(""), now))]
    {
      var slot: Option<Slot>;
      if expectedSlotId.Some? && expectedSlotId.value != "" {
        slot := FindSlotById(slots, expectedSlotId);
      } else {
        slot := activeSlot;
      }
      if slot.None? {
        return NoActiveSlot;
      }
      var s := slot.value;
      var scanned := BarcodeScanner.ScanOnce(s.students, SCAN_TIMEOUT, camera, faceFile);
      var group := None;
      if scanned.rollNo.Some? {
        group := FindGroup(groups, scanned.rollNo.value);
      }
      r := PostProcess(scanned, None, group, s);
      if r.rollNo.Some? {
        var file := if s.subject in logs then Some(logs[s.subject]) else None;
        logs := logs[s.subject := AppendRow(file, AttendanceRecord(today, s.time, r.rollNo.value, r.status.GetOr(""), now))];
      }
    }
  }

  /** Setting the same slot twice gives the same reply and the same state. */
  method SetSlotTwice(server: Server, auth: string, slotId: Option<string>)
    returns (first: SetSlotResponse, second: SetSlotResponse)
    requires server.Valid()
    modifies server
    ensures first == second
    ensures !first.ok ==> server.activeSlot == old(server.activeSlot)
    ensures first.ok ==> server.activeSlot == first.active
  {
    first := server.SetSlot(auth, slotId);
    second := server.SetSlot(auth, slotId);
  }
}
