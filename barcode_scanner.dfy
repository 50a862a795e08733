/**
 * scan_once of backend/barcode_scanner.py: poll the camera until a barcode is
 * read, then run the check chain on it (roll-number format, duplicate cooldown,
 * class list, enrolment record, face present, face distance).
 *
 * The camera is a trace of loop iterations. Each polled frame carries what the
 * vision libraries report for it: whether a frame was grabbed, the decoded
 * barcodes (each with the clock reading taken for it and the face distance
 * against that roll number's stored embedding), whether a face was found, and
 * the key code of cv2.waitKey. A trace that runs out stands for the iteration
 * at which the timer has expired.
 */
module BarcodeScanner {
  import opened Wrappers
  import opened Text
  import opened Wire
  import opened FaceData

  const SIMILARITY_THRESHOLD: real := 0.4
  const DUPLICATE_COOLDOWN: real := 1.0
  const KEY_Q: int := 113   // ord('q')
  const KEY_ESC: int := 27

  datatype Barcode = Barcode(data: string, seenAt: real, distance: real)

  datatype Frame = Frame(elapsed: real, grabbed: bool, barcodes: seq<Barcode>, faceFound: bool, key: int)

  /** One iteration of the polling loop, or an exception that ends it. */
  datatype Event =
    | Poll(frame: Frame)
    | Interrupt            // KeyboardInterrupt
    | Raised(message: string)  // any other exception, with str(e)

  /** The camera manager either hands out no device or an opened one. */
  datatype Camera = Unavailable | Opened(events: seq<Event>)

  /**
   * ROLL_REGEX `^\d{9}$` under re.match: nine digits; Python's `$` also
   * matches just before a final newline.
   */
  predicate RollRegexMatches(s: string) {
    || (|s| == 9 && AllDigits(s))
    || (|s| == 10 && AllDigits(s[..9]) && s[9] == '\n')
  }

  /** On a stripped code the regex is exactly "nine decimal digits". */
  lemma StrippedRollMatches(data: string)
    ensures var raw := Strip(PythonStr, data);
      RollRegexMatches(raw) <==> |raw| == 9 && AllDigits(raw)
  {
    var raw := Strip(PythonStr, data);
    if |raw| == 10 {
      assert IsSpace(PythonStr, '\n');
    }
  }

  // The results scan_once returns.
  function Rejected(status: string, raw: string): ScanResponse {
    ScanResponse(false, Some(status), Some(raw), None, None)
  }
  function Matched(raw: string, distance: real): ScanResponse {
    ScanResponse(true, Some(VALID), Some(raw), Some(distance), None)
  }
  function Mismatched(raw: string, distance: real): ScanResponse {
    ScanResponse(false, Some(FACE_MISMATCH), Some(raw), Some(distance), None)
  }
  const TimedOut := ScanResponse(false, Some(TIMEOUT), None, None, Some("No barcode detected within timeout"))
  const NoCamera := ScanResponse(false, Some(CAMERA_ERROR), None, None, Some("Cannot open camera"))
  const Aborted := ScanResponse(false, Some(ABORTED_BY_USER), None, None, None)
  const Interrupted := ScanResponse(false, Some(INTERRUPTED), None, None, None)
  function Crashed(message: string): ScanResponse {
    ScanResponse(false, Some(ERROR), None, None, Some(message))
  }

  /** Statuses returned without a roll number. */
  predicate IsRolllessStatus(s: string) {
    s == TIMEOUT || s == CAMERA_ERROR || s == ABORTED_BY_USER || s == INTERRUPTED || s == ERROR
  }

  /** The statuses scan_once itself returns; the group checks add the others. */
  predicate IsScannerStatus(s: string) {
    || s == VALID || s == FACE_MISMATCH || s == INVALID_FORMAT || s == NOT_PART_OF_CLASS
    || s == NO_RECORD || s == NO_FACE || IsRolllessStatus(s)
  }

  /**
   * The shape every scan_once result has: one of the scanner's statuses; a roll number exactly
   * when the status is not one of the roll-less ones; ok only for a VALID
   * match below the threshold; a distance exactly for VALID and FACE_MISMATCH.
   */
  predicate WellFormedResult(r: ScanResponse) {
    && r.status.Some? && r.status.value != "" && IsScannerStatus(r.status.value)
    && (r.rollNo.None? <==> IsRolllessStatus(r.status.value))
    && (r.ok <==> r.status.value == VALID)
    && (r.ok ==> r.distance.Some? && r.distance.value < SIMILARITY_THRESHOLD)
    && (r.distance.Some? <==> r.status.value == VALID || r.status.value == FACE_MISMATCH)
  }

  /**
   * The checks after the cooldown, in the source's order; the first that
   * fails names the status.
   */
  function Decide(raw: string, expected: Option<seq<string>>, db: map<string, Embedding>,
                  faceFound: bool, distance: real): (r: ScanResponse)
    ensures WellFormedResult(r) && r.rollNo == Some(raw)
    ensures r.status == Some(NOT_PART_OF_CLASS) <==> expected.Some? && raw !in expected.value
    ensures r.status == Some(NO_RECORD) <==> (expected.None? || raw in expected.value) && raw !in db
    ensures r.status == Some(NO_FACE) <==>
      (expected.None? || raw in expected.value) && raw in db && !faceFound
    ensures r.ok <==>
      (expected.None? || raw in expected.value) && raw in db && faceFound && distance < SIMILARITY_THRESHOLD
    ensures r.status == Some(FACE_MISMATCH) <==>
      (expected.None? || raw in expected.value) && raw in db && faceFound && distance >= SIMILARITY_THRESHOLD
    ensures r.distance.Some? ==> r.distance.value == distance
  {
    if expected.Some? && raw !in expected.value then Rejected(NOT_PART_OF_CLASS, raw)
    else if raw !in db then Rejected(NO_RECORD, raw)
    else if !faceFound then Rejected(NO_FACE, raw)
    else if distance < SIMILARITY_THRESHOLD then Matched(raw, distance)
    else Mismatched(raw, distance)
  }

  /** What one barcode does: the new last_seen, and the result if the scan ends here. */
  datatype Step = Step(lastSeen: map<string, real>, verdict: Option<ScanResponse>)

  /** `last and (now - last) < DUPLICATE_COOLDOWN`; a reading of 0.0 is falsy in Python. */
  predicate InCooldown(raw: string, now: real, lastSeen: map<string, real>) {
    raw in lastSeen && lastSeen[raw] != 0.0 && now - lastSeen[raw] < DUPLICATE_COOLDOWN
  }

  /** The per-barcode decision chain of the polling loop. */
  function CheckBarcode(b: Barcode, lastSeen: map<string, real>, expected: Option<seq<string>>,
                        dbFile: DbFile, faceFound: bool): (s: Step)
    ensures var raw := Strip(PythonStr, b.data);
      && (!RollRegexMatches(raw) ==> s == Step(lastSeen, Some(Rejected(INVALID_FORMAT, raw))))
      && (RollRegexMatches(raw) ==>
            && (s.verdict.None? <==> InCooldown(raw, b.seenAt, lastSeen))
            && s.lastSeen == (if s.verdict.None? then lastSeen else lastSeen[raw := b.seenAt])
            && (s.verdict.Some? ==> s.verdict.value == Decide(raw, expected, Load(dbFile), faceFound, b.distance)))
    ensures s.verdict.Some? ==> WellFormedResult(s.verdict.value)
  {
    var raw := Strip(PythonStr, b.data);
    if !RollRegexMatches(raw) then Step(lastSeen, Some(Rejected(INVALID_FORMAT, raw)))
    else if InCooldown(raw, b.seenAt, lastSeen) then Step(lastSeen, None)
    else Step(lastSeen[raw := b.seenAt], Some(Decide(raw, expected, Load(dbFile), faceFound, b.distance)))
  }

  /** The loop over one frame's barcodes, from the j-th on. */
  function RunBarcodes(codes: seq<Barcode>, j: nat, lastSeen: map<string, real>,
                       expected: Option<seq<string>>, dbFile: DbFile, faceFound: bool): Step
    requires j <= |codes|
    decreases |codes| - j
  {
    if j == |codes| then Step(lastSeen, None)
    else
      var s := CheckBarcode(codes[j], lastSeen, expected, dbFile, faceFound);
      if s.verdict.Some? then s else RunBarcodes(codes, j + 1, s.lastSeen, expected, dbFile, faceFound)
  }

  /** `cv2.waitKey(1) & 0xFF` is q or ESC (Python's & on a negative int keeps the low byte). */
  predicate CancelKey(key: int) {
    key % 256 == KEY_Q || key % 256 == KEY_ESC
  }

  /** The polling loop from the i-th iteration on. */
  function RunEvents(events: seq<Event>, i: nat, lastSeen: map<string, real>,
                     expected: Option<seq<string>>, timeout: real, dbFile: DbFile): ScanResponse
    requires i <= |events|
    decreases |events| - i
  {
    if i == |events| then TimedOut
    else match events[i]
      case Interrupt => Interrupted
      case Raised(m) => Crashed(m)
      case Poll(f) =>
        if f.elapsed > timeout then TimedOut
        else if !f.grabbed then RunEvents(events, i + 1, lastSeen, expected, timeout, dbFile)
        else
          var s := RunBarcodes(f.barcodes, 0, lastSeen, expected, dbFile, f.faceFound);
          if s.verdict.Some? then s.verdict.value
          else if CancelKey(f.key) then Aborted
          else RunEvents(events, i + 1, s.lastSeen, expected, timeout, dbFile)
  }

  /** The result of scan_once for a camera, a class list, a timeout and the face database file. */
  function Scan(expected: Option<seq<string>>, timeout: real, camera: Camera, dbFile: DbFile): ScanResponse {
    match camera
    case Unavailable => NoCamera
    case Opened(events) => RunEvents(events, 0, map[], expected, timeout, dbFile)
  }

  /**
   * The loop over the barcodes of one grabbed frame: each code is checked in
   * turn, one in cooldown is skipped, and the first that passes the cooldown
   * (or fails the format) ends the scan.
   */
  method ScanFrame(codes: seq<Barcode>, lastSeen: map<string, real>, expected: Option<seq<string>>,
                   dbFile: DbFile, faceFound: bool) returns (s: Step)
    ensures s == RunBarcodes(codes, 0, lastSeen, expected, dbFile, faceFound)
  {
    var seen := lastSeen;
    var j := 0;
    while j < |codes|
      invariant 0 <= j <= |codes|
      invariant RunBarcodes(codes, j, seen, expected, dbFile, faceFound)
             == RunBarcodes(codes, 0, lastSeen, expected, dbFile, faceFound)
    {
      var b := codes[j];
      var raw := Strip(PythonStr, b.data);
      if !RollRegexMatches(raw) {
        return Step(seen, Some(Rejected(INVALID_FORMAT, raw)));
      }
      if raw in seen && seen[raw] != 0.0 && b.seenAt - seen[raw] < DUPLICATE_COOLDOWN {
        j := j + 1;
        continue;
      }
      ghost var old_seen := seen;
      seen := seen[raw := b.seenAt];
      assert CheckBarcode(b, old_seen, expected, dbFile, faceFound).lastSeen == seen;
      return Step(seen, Some(Decide(raw, expected, Load(dbFile), faceFound, b.distance)));
    }
    return Step(seen, None);
  }

  /** scan_once: the polling loop with its early returns. */
  method ScanOnce(expected: Option<seq<string>>, timeout: real, camera: Camera, dbFile: DbFile)
    returns (r: ScanResponse)
    ensures r == Scan(expected, timeout, camera, dbFile)
    ensures WellFormedResult(r)
  {
    ScanIsWellFormed(expected, timeout, camera, dbFile);
    if camera.Unavailable? {
      return NoCamera;
    }
    var events := camera.events;
    var lastSeen: map<string, real> := map[];
    var i := 0;
    while i < |events|
      invariant 0 <= i <= |events|
      invariant RunEvents(events, i, lastSeen, expected, timeout, dbFile) == Scan(expected, timeout, camera, dbFile)
    {
      match events[i] {
        case Interrupt =>
          return Interrupted;
        case Raised(m) =>
          return Crashed(m);
        case Poll(f) =>
          if f.elapsed > timeout {
            return TimedOut;
          }
          if f.grabbed {
            var s := ScanFrame(f.barcodes, lastSeen, expected, dbFile, f.faceFound);
            if s.verdict.Some? {
              return s.verdict.value;
            }
            if CancelKey(f.key) {
              return Aborted;
            }
            lastSeen := s.lastSeen;
          }
          i := i + 1;
      }
    }
    return TimedOut;
  }

  // ---- Properties of the scan ----

  lemma {:induction false} RunBarcodesWellFormed(codes: seq<Barcode>, j: nat, lastSeen: map<string, real>,
                                                 expected: Option<seq<string>>, dbFile: DbFile, faceFound: bool)
    requires j <= |codes|
    ensures var s := RunBarcodes(codes, j, lastSeen, expected, dbFile, faceFound);
      s.verdict.Some? ==> WellFormedResult(s.verdict.value)
    decreases |codes| - j
  {
    if j < |codes| {
      var s := CheckBarcode(codes[j], lastSeen, expected, dbFile, faceFound);
      if s.verdict.None? {
        RunBarcodesWellFormed(codes, j + 1, s.lastSeen, expected, dbFile, faceFound);
      }
    }
  }

  lemma {:induction false} RunEventsWellFormed(events: seq<Event>, i: nat, lastSeen: map<string, real>,
                                               expected: Option<seq<string>>, timeout: real, dbFile: DbFile)
    requires i <= |events|
    ensures WellFormedResult(RunEvents(events, i, lastSeen, expected, timeout, dbFile))
    decreases |events| - i
  {
    if i < |events| && events[i].Poll? {
      var f := events[i].frame;
      if f.elapsed <= timeout {
        if !f.grabbed {
          RunEventsWellFormed(events, i + 1, lastSeen, expected, timeout, dbFile);
        } else {
          RunBarcodesWellFormed(f.barcodes, 0, lastSeen, expected, dbFile, f.faceFound);
          var s := RunBarcodes(f.barcodes, 0, lastSeen, expected, dbFile, f.faceFound);
          if s.verdict.None? && !CancelKey(f.key) {
            RunEventsWellFormed(events, i + 1, s.lastSeen, expected, timeout, dbFile);
          }
        }
      }
    }
  }

  /**
   * Every scan_once result has a status; TIMEOUT, CAMERA_ERROR,
   * ABORTED_BY_USER, INTERRUPTED and ERROR exactly are the ones without a
   * roll number; ok holds only for VALID with a distance below the threshold.
   */
  lemma ScanIsWellFormed(expected: Option<seq<string>>, timeout: real, camera: Camera, dbFile: DbFile)
    ensures WellFormedResult(Scan(expected, timeout, camera, dbFile))
  {
    if camera.Opened? {
      RunEventsWellFormed(camera.events, 0, map[], expected, timeout, dbFile);
    }
  }

  /** scan_once never reports NOT_ENROLLED: that status is only written by the scan endpoint. */
  lemma ScanNeverReportsNotEnrolled(expected: Option<seq<string>>, timeout: real, camera: Camera, dbFile: DbFile)
    ensures Scan(expected, timeout, camera, dbFile).status != Some(NOT_ENROLLED)
    ensures Scan(expected, timeout, camera, dbFile).status != Some(NO_GROUP)
    ensures Scan(expected, timeout, camera, dbFile).status != Some(NOT_IN_ACTIVE_GROUP)
  {
    ScanIsWellFormed(expected, timeout, camera, dbFile);
  }

  /**
   * The scan as a reference without any cooldown: the first barcode of the
   * first grabbed frame that has one decides the result.
   */
  function FirstBarcodeDecides(events: seq<Event>, i: nat, expected: Option<seq<string>>,
                               timeout: real, dbFile: DbFile): ScanResponse
    requires i <= |events|
    decreases |events| - i
  {
    if i == |events| then TimedOut
    else match events[i]
      case Interrupt => Interrupted
      case Raised(m) => Crashed(m)
      case Poll(f) =>
        if f.elapsed > timeout then TimedOut
        else if f.grabbed && |f.barcodes| > 0 then
          var raw := Strip(PythonStr, f.barcodes[0].data);
          if !RollRegexMatches(raw) then Rejected(INVALID_FORMAT, raw)
          else Decide(raw, expected, Load(dbFile), f.faceFound, f.barcodes[0].distance)
        else if f.grabbed && CancelKey(f.key) then Aborted
        else FirstBarcodeDecides(events, i + 1, expected, timeout, dbFile)
  }

  /**
   * The duplicate cooldown never fires within one scan_once: last_seen gets
   * an entry only just before a return, so it is empty whenever it is read,
   * and the scan equals the cooldown-free reference.
   */
  lemma {:induction false} CooldownNeverSkips(events: seq<Event>, i: nat, expected: Option<seq<string>>,
                                              timeout: real, dbFile: DbFile)
    requires i <= |events|
    ensures RunEvents(events, i, map[], expected, timeout, dbFile)
         == FirstBarcodeDecides(events, i, expected, timeout, dbFile)
    decreases |events| - i
  {
    if i < |events| && events[i].Poll? {
      var f := events[i].frame;
      if f.elapsed <= timeout && f.grabbed && |f.barcodes| == 0 {
        assert RunBarcodes(f.barcodes, 0, map[], expected, dbFile, f.faceFound) == Step(map[], None);
        CooldownNeverSkips(events, i + 1, expected, timeout, dbFile);
      } else if f.elapsed <= timeout && !f.grabbed {
        CooldownNeverSkips(events, i + 1, expected, timeout, dbFile);
      }
    }
  }
}
