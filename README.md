# Attendance system: a verified model

This project models a barcode-plus-face attendance system in Dafny and proves properties of the model. The system has two halves:

- **Backend (Flask).** It keeps three pieces of state:
  - a table of admin sessions;
  - the active class slot;
  - an append-only CSV log per subject.

  A scan opens the camera and waits for a student's roll-number barcode. It checks, in order:
  - the nine-digit format;
  - a duplicate cooldown;
  - the class list;
  - an enrolment record in the face database;
  - that a face is present;
  - the face distance.

  The endpoint then applies group checks and logs one row whenever the result names a roll number. Enrolment stores a captured face embedding under a roll number.
- **Browser client (TypeScript).** It builds the requests:
  - a Bearer header;
  - a percent-encoded attendance query;
  - an optional scan body.

  It also colours attendance statuses, de-duplicates the subject list, and updates the dashboard and student pages from each reply.

## Modules

- `Wrappers`: Option.
- `Text`: Python `str.strip` and JavaScript `trim`, each with its own white-space set. Also `split(" ", 1)`.
- `Wire`: the JSON shapes both sides exchange, and `.get` on keyed values.
- `FaceData`: the face database file.
- `BarcodeScanner`: scan_once.
- `FaceScan`: enrolment.
- `App`: the Flask server, as the class `Server`.
- `UriComponent`: encodeURIComponent and decodeURIComponent, including UTF-8.
- `QueryString`: how Flask reads `request.args`.
- `Api`: the client's requests.
- `ClientServer`: the client and server composed.
- `AttendanceTable`, `AdminDashboard`, `StudentScan`: the pages.

## How it is modelled

- **Outside inputs are parameters**, in both halves:
  - the camera, as a trace of loop iterations. Each iteration carries what OpenCV, pyzbar and face_recognition reported, plus the clock readings.
  - the uuid4 token, as a fresh value not already in the session table;
  - the current date and timestamp;
  - each awaited `fetch` reply, on the client. None stands for a call that threw.
- **Mutable state becomes classes**:
  - `App.Server` holds the sessions, the active slot and the logs.
  - `FaceScan.FaceDatabase` holds the database file.
  - `AdminDashboard.Dashboard` and `StudentScan.StudentScanPage` hold the React component state.
- **Source loops become methods proved against reference functions.** These are scan_once's polling loop, `find_slot_by_id`, the group search and the CSV read loop.

The model exposes some behaviours of the code:

- **The duplicate cooldown of scan_once never skips a code.** `BarcodeScanner.CooldownNeverSkips` proves this: the scan equals a reference with no cooldown at all. `last_seen` is only written just before a return, so it is empty whenever it is read.
- **NOT_ENROLLED can never be produced.** The scan endpoint reads `ok_rolls` from the scan result, but scan_once never sets it. `App.Server.Scan` therefore passes None. `BarcodeScanner.ScanNeverReportsNotEnrolled` proves that scan_once never returns that status, and `App.Server.Scan` proves that no reply of the endpoint carries it.
- **An empty group name counts as no group.** A roll listed under a group named "" gets NO_GROUP, because `if not student_group` is true for "".
- **A stale token crashes the dashboard.** The attendance endpoint's 401 body has no `rows`, so getAttendance returns undefined. The dashboard then computes `attendanceRecords.length` on it and throws. `ClientServer.ViewAttendance` proves the view is `Crashed` exactly when the token is no longer a session.
- **The client and the backend validate roll numbers differently.** The student page checks only that the roll number is non-blank after `trim`, and sends it untrimmed. The enrol endpoint checks only that it is non-empty, and does no nine-digit check.

## Model

| member | source | states |
|---|---|---|
| Text.Strip | backend/barcode_scanner.py:87 | The result neither starts nor ends with white space. It is empty exactly when the input is all white space. |
| Text.StripIsSlice | backend/barcode_scanner.py:87 | The stripped text is a slice of the input, with only white space before and after it. |
| Text.AfterFirstSpace | backend/app.py:83 | `split(" ", 1)[1]` is absent (IndexError) exactly when there is no space. Otherwise it is the text after the first space. |
| Wire.Lookup | backend/app.py:114-115 | `request.args.get(key)` is absent exactly when no argument has the key. Otherwise it is the value of the first argument with that key. For the client's headers and JSON bodies, which have one entry per key, it is also their `.get`. |
| FaceData.Load | backend/face_scan.py:90-99 | A stored file reads as its map. A missing or unparsable file reads as the empty map. |
| BarcodeScanner.StrippedRollMatches | backend/barcode_scanner.py:27 | On a stripped code, ROLL_REGEX `^\d{9}$` matches exactly nine digits. |
| BarcodeScanner.Decide | backend/barcode_scanner.py:100-124 | The checks run in order: class list (NOT_PART_OF_CLASS, skipped without a list), record (NO_RECORD), face present (NO_FACE), then distance. Each status holds iff every earlier check passed and this one failed. ok holds iff the distance is below 0.4; at 0.4 or above the status is FACE_MISMATCH. The result echoes the roll number. |
| BarcodeScanner.CheckBarcode | backend/barcode_scanner.py:87-98 | A stripped code that fails the regex gives INVALID_FORMAT with the raw code, and `last_seen` is untouched. A code in cooldown is skipped and changes nothing. Otherwise `last_seen[raw]` becomes the clock reading, no other entry changes, and the decision chain gives the verdict. |
| BarcodeScanner.ScanFrame | backend/barcode_scanner.py:86-124 | The barcode loop with `continue` matches the per-frame reference RunBarcodes. |
| BarcodeScanner.ScanOnce | backend/barcode_scanner.py:45-139 | The polling loop matches the reference scan. The outcomes are CAMERA_ERROR, TIMEOUT, a skipped grab, a barcode verdict, the q/ESC key taken as `& 0xFF`, INTERRUPTED, or ERROR with the exception text. The result is always well formed. |
| BarcodeScanner.ScanIsWellFormed | backend/barcode_scanner.py:56-139 | Every result has a non-empty status. It lacks a roll number exactly for TIMEOUT, CAMERA_ERROR, ABORTED_BY_USER, INTERRUPTED and ERROR. ok holds iff the status is VALID, which needs a distance below the threshold. VALID and FACE_MISMATCH exactly carry a distance. The status is always one of scan_once's own. |
| BarcodeScanner.ScanNeverReportsNotEnrolled | backend/barcode_scanner.py:45-139 | scan_once never returns NOT_ENROLLED, NO_GROUP or NOT_IN_ACTIVE_GROUP. Only the scan endpoint writes them. |
| BarcodeScanner.RunEventsWellFormed | backend/barcode_scanner.py:66-131 | Every result the polling loop returns, from any iteration, is well formed. |
| BarcodeScanner.CooldownNeverSkips | backend/barcode_scanner.py:94-98 | Starting from an empty `last_seen`, the scan equals a reference in which the first barcode of the first grabbed frame decides. So the cooldown never fires. |
| FaceScan.EnrollReply | backend/face_scan.py:136-150 | ok holds exactly when enrolment succeeded and the reloaded database holds the roll number. The roll number is always echoed. |
| FaceScan.ConsoleCheckMatchesScanner | backend/face_scan.py:162-164 | On ASCII text, main's check (stripped, length 9, all digits) accepts exactly the codes the scanner's regex accepts. |
| FaceScan.FaceDatabase.EnrollStudent | backend/face_scan.py:108-125 | With no embedding (None or empty), the result is False and the file is unchanged. Otherwise the file holds the loaded map with this roll's entry set or overwritten, and every other entry is kept. |
| FaceScan.FaceDatabase.EnrollStudentApi | backend/face_scan.py:128-157 | ok holds exactly when an embedding was captured, and the roll number is echoed. The file changes as in enroll_student. |
| FaceScan.FaceDatabase.EnrollFromConsole | backend/face_scan.py:160-167 | Enrols, under the stripped text, exactly when the stripped line is nine digits and a face was captured. Otherwise the file is unchanged. |
| FaceScan.EnrolledRollHasRecord | backend/face_scan.py:120-122 | After enrolment, a scan of that roll number never ends in NO_RECORD. |
| App.SlotWithIdIsFirst | backend/app.py:43-48 | The lookup is None exactly when no slot has the id. Otherwise it returns the first slot with that id. |
| App.FindSlotById | backend/app.py:43-48 | The loop returns the first matching slot, or None. |
| App.GroupOfIsFirst | backend/app.py:173-177 | The group is None exactly when no group lists the roll. Otherwise it is the first group that does. |
| App.FindGroup | backend/app.py:173-177 | The loop with `break` finds the first group listing the roll. |
| App.CheckToken | backend/app.py:80-85 | A token is returned exactly when the header starts with "Bearer " and the rest is a session key. Otherwise the result is None. |
| App.Records | backend/app.py:122-124 | DictReader yields the data lines after the header, in order. |
| App.AppendRow | backend/app.py:50-60 | The header is written only for a new file. The file's records become the old records plus the new row, and the old lines are kept as a prefix. |
| App.FilterRows | backend/app.py:121-127 | The read loop keeps the rows Filtered describes, in file order. |
| App.FilteredMembers | backend/app.py:125-127 | A row is kept exactly when it is in the file and on the requested date. |
| App.FilteredAppend | backend/app.py:121-127 | Filtering a concatenation is the concatenation of the filtered parts, so order is preserved. |
| App.FilteredWithoutDate | backend/app.py:125 | With no date, or an empty one, every row is kept. |
| App.ChosenSlot | backend/app.py:144-149 | A non-empty expected id selects find_slot_by_id of it, with no fallback. Otherwise the active slot is used. |
| App.PostProcess | backend/app.py:163-186 | The roll, distance and message are unchanged, and ok is never turned on. Without a roll the result is unchanged. With a roll, the first failing check (NOT_ENROLLED, NO_GROUP, NOT_IN_ACTIVE_GROUP) sets ok false and its status, even after a failed scan. Without `ok_rolls`, NOT_ENROLLED never appears. |
| App.Server.constructor | backend/app.py:31-36 | The password comes from ADMIN_PASSWORD, or is "adminpass". The server starts with no sessions and no active slot. |
| App.Server.GetSlots | backend/app.py:66-68 | Returns the slot list. `ClientServer.LoadSlotsFromServer` carries it to the dashboard. |
| App.Server.Login | backend/app.py:70-78 | A wrong or missing password leaves the sessions unchanged and gives ok=false. The right one adds exactly the fresh token, which `check_token` then accepts. |
| App.Server.GetActiveSlot | backend/app.py:87-92 | An authorised call returns the active slot. Otherwise the call is refused with no slot. |
| App.Server.SetSlot | backend/app.py:95-107 | Unauthorised calls and unknown ids leave the active slot unchanged. On success the active slot becomes the first slot with the id, the reply returns it as `active`, and get_active_slot then reports it. |
| App.Server.Attendance | backend/app.py:109-128 | An unauthorised call is refused. A missing or empty subject is an error. A subject without a file gives no rows. Otherwise the rows are the file's rows on the date, or all of them, in order. |
| App.Server.Enroll | backend/app.py:130-138 | A missing or empty roll number is refused and nothing is written. Otherwise the call behaves as enroll_student_api. |
| App.Server.Scan | backend/app.py:140-198 | Without a slot, the reply is "No active slot" and nothing is logged. Otherwise the scan runs with the slot's student list, and the group checks use the first group of the roll. Exactly one row (date, slot time, roll, status, timestamp) is appended iff the reply has a roll number. No reply carries NOT_ENROLLED. |
| App.SetSlotTwice | backend/app.py:95-107 | Setting the same id twice gives the same reply and the same active slot. |
| UriComponent.Utf8RoundTrip | frontend/src/services/api.ts:98 | The UTF-8 bytes of a character decode back to it, with a well-formed leading byte and continuation bytes. |
| UriComponent.DecodeEncode | frontend/src/services/api.ts:98-100 | decodeURIComponent of encodeURIComponent(s) is s. |
| UriComponent.EncodeAlphabet | frontend/src/services/api.ts:98-100 | The encoding uses only the unescaped characters, '%' and upper-case hex digits. |
| UriComponent.EncodeHasNoDelimiters | frontend/src/services/api.ts:98-100 | The encoding holds no '&', '=', '?', '#' or '+'. |
| QueryString.JoinSplit | backend/app.py:114-115 | Splitting on a separator and joining again gives the text back. |
| QueryString.SplitJoin | backend/app.py:114-115 | Joining separator-free pieces and splitting again gives the pieces back. |
| QueryString.UnquoteEncoded | backend/app.py:114-115 | Flask's form decoding reads an encodeURIComponent value back as the original text. |
| QueryString.ParseEncodedPair | backend/app.py:114-115 | A pair `key=` followed by an encoded value parses as the key and the original value, for a key without '=', '%' or '+'. |
| Api.ApiBase | frontend/src/services/api.ts:1 | An unset or empty VITE_API_BASE gives http://127.0.0.1:5000. `ClientServer.ExportedClientQueryRoundTrip` proves the query round trip for the client built on it. |
| Api.AuthorizationValue | frontend/src/services/api.ts:83 | The header is "Bearer " followed by exactly the token. |
| Api.AttendanceQuery | frontend/src/services/api.ts:98-101 | The query is always `subject=<encoded>`, with `&date=<encoded>` iff the date is present and non-empty. |
| Api.ScanBody | frontend/src/services/api.ts:119 | The body is exactly `{expected_slot_id}` for a present, non-empty id, and exactly `{}` otherwise. |
| Api.ApiClient.SetActiveSlotRequest | frontend/src/services/api.ts:78-88 | POST to /api/admin/set_slot, with the Bearer header. The body is exactly `{slot_id}`. |
| Api.ApiClient.ActiveSlotRequest | frontend/src/services/api.ts:90-95 | GET of /api/admin/active_slot, with the Bearer header. |
| Api.ApiClient.AttendanceRequest | frontend/src/services/api.ts:97-104 | GET of the attendance URL, with the Bearer header. |
| Api.ApiClient.LoginRequest | frontend/src/services/api.ts:63-70 | POST to /api/admin/login. The body is exactly `{password}`. |
| Api.ApiClient.SlotsRequest | frontend/src/services/api.ts:72-73 | GET of /api/slots, with no body. |
| Api.ApiClient.EnrollRequest | frontend/src/services/api.ts:109-116 | POST to /api/enroll. The body is exactly `{roll_no}`. |
| Api.ApiClient.ScanRequest | frontend/src/services/api.ts:118-126 | POST to /api/scan, with the optional-id body. |
| Api.SlotsOf | frontend/src/services/api.ts:72-75 | getSlots returns the reply's `slots` unchanged. `ClientServer.LoadSlotsFromServer` proves the dashboard then holds slots.json's slots. |
| Api.RowsOf | frontend/src/services/api.ts:105-106 | getAttendance returns the reply's `rows` unchanged. It is undefined in an error reply. |
| ClientServer.BearerRoundTrip | frontend/src/services/api.ts:83 | For the client's header, check_token returns exactly the token when it is a session key, and None otherwise. |
| ClientServer.AttendanceQueryRoundTrip | frontend/src/services/api.ts:98-101 | For any subject and date, Flask's `args.get("subject")` gives the subject back. `args.get("date")` gives the date iff it is non-empty. So no value can inject a parameter. |
| ClientServer.DefaultBaseIsPlain | frontend/src/services/api.ts:1 | The default base, or a configured one without '?' or '#', has neither character, so the query lemmas apply to it. |
| ClientServer.ExportedClientQueryRoundTrip | frontend/src/services/api.ts:97-129 | For the exported `api` client, built on VITE_API_BASE or the default, the backend reads back exactly the subject and the non-empty date it was given. |
| ClientServer.FetchAttendance | frontend/src/services/api.ts:97-107 | Against the backend, rows come back exactly for a live, non-empty token and a non-empty subject. They are the subject's logged rows on that date in order, all of them without a date, or none without a file. |
| ClientServer.ViewAttendance | frontend/src/pages/AdminDashboard.tsx:69-80 | With a live session the dashboard shows exactly the backend's rows, or nothing when there are none. With a stale token it crashes. |
| ClientServer.ScanRequestSelectsSlot | frontend/src/services/api.ts:119 | The backend scans against the slot with the client's id when the id is non-empty, and the active slot otherwise. |
| ClientServer.StudentScanUsesActiveSlot | frontend/src/pages/StudentScan.tsx:38 | The student page's scan always uses the active slot. |
| ClientServer.SetSlotOverHttp | frontend/src/services/api.ts:78-88 | Over the wire, set_slot succeeds exactly for a live session and a known id, and the active slot then becomes that slot. |
| ClientServer.LoadSlotsFromServer | frontend/src/pages/AdminDashboard.tsx:31-38 | After loadSlots is answered by /api/slots, the dashboard holds the slots of slots.json. Its subject drop-down (line 87) offers exactly their subjects, with none twice. |
| ClientServer.SuccessfulScanNamesRoll | backend/app.py:163-198 | A successful scan reply always has the status VALID and a roll number. |
| ClientServer.ScanOverHttp | backend/app.py:140-198 | A scan request the client builds, answered by the backend's scan endpoint, gets a reply the endpoint can send. A successful reply names a roll number with status VALID, and the page counts it a success exactly when `ok`. |
| ClientServer.ScanPageShowsOutcome | frontend/src/pages/StudentScan.tsx:39-42 | For any scan-endpoint reply, the page shows the roll number on success and never "undefined". A failure shows the status, or "No active slot". |
| AttendanceTable.StatusColour | frontend/src/components/AttendanceTable.tsx:8-22 | The mapping is total. Only VALID is green, FACE_MISMATCH and INVALID exactly are red, NO_FACE is orange, NOT_IN_ACTIVE_GROUP is purple, everything else is gray. |
| AttendanceTable.ClassNamesDiffer | frontend/src/components/AttendanceTable.tsx:8-22 | Different colours use different class strings. |
| AttendanceTable.SameBadgeSameColour | frontend/src/components/AttendanceTable.tsx:44 | Two statuses get the same badge classes exactly when they get the same colour. |
| AttendanceTable.OtherLoggedStatusesAreGray | frontend/src/components/AttendanceTable.tsx:19-20 | INVALID_FORMAT, NOT_PART_OF_CLASS, NO_RECORD, NOT_ENROLLED and NO_GROUP are gray. |
| AttendanceTable.Render | frontend/src/components/AttendanceTable.tsx:38-55 | There is one row per record, in order. The empty notice appears iff there are no records. |
| AttendanceTable.RenderShowsEveryRecord | frontend/src/components/AttendanceTable.tsx:38-50 | Reading the rows back gives exactly the records, and each badge is its status's classes. |
| AdminDashboard.Distinct | frontend/src/pages/AdminDashboard.tsx:87 | The values are exactly those of the input, and there are no more of them than input elements. |
| AdminDashboard.DistinctInFirstOccurrenceOrder | frontend/src/pages/AdminDashboard.tsx:87 | There are no duplicates, and values appear in the order of their first occurrence (Set insertion order). |
| AdminDashboard.Subjects | frontend/src/pages/AdminDashboard.tsx:87 | The subject set equals the set of slot subjects, with at most one entry per slot. |
| AdminDashboard.SetSlotMessage | frontend/src/pages/AdminDashboard.tsx:56-63 | "✅ " + message on ok, "Failed to set slot" otherwise, "Error setting slot" when the call threw. |
| AdminDashboard.DateFilter | frontend/src/pages/AdminDashboard.tsx:73 | An empty date becomes undefined. |
| AdminDashboard.Dashboard.constructor | frontend/src/pages/AdminDashboard.tsx:9-20 | The first render: no slots, nothing picked, no active slot, no message, an empty subject and date, and an empty record list. |
| AdminDashboard.Dashboard.LoadSlots | frontend/src/pages/AdminDashboard.tsx:31-38 | The slots become the reply's slots. A call that threw leaves them and sets the message. |
| AdminDashboard.Dashboard.LoadActiveSlot | frontend/src/pages/AdminDashboard.tsx:40-48 | Nothing happens without a token. The active slot becomes the reply's `active_slot`. |
| AdminDashboard.Dashboard.HandleSetSlot | frontend/src/pages/AdminDashboard.tsx:50-67 | No slot or no token means no call and no change. Otherwise the request carries the picked id, the active slot changes only on ok, the message reports the outcome, and loading ends false. |
| AdminDashboard.Dashboard.HandleViewAttendance | frontend/src/pages/AdminDashboard.tsx:69-80 | No subject or no token means no call. Otherwise the request has an empty date as undefined, the records become the reply's rows, a throw sets the message, and loadingAttendance ends false. |
| AdminDashboard.Dashboard.AttendanceSection | frontend/src/pages/AdminDashboard.tsx:173-175 | Undefined records crash the page. The table renders exactly for non-empty records, and shows them. |
| AdminDashboard.NoEmptyNotice | frontend/src/pages/AdminDashboard.tsx:173-175 | Whenever the dashboard's attendance section shows a table, that table does not show its empty notice. |
| StudentScan.ResultBox | frontend/src/pages/StudentScan.tsx:83-84 | There is no box for an empty result. It is green iff the text starts with ✅, red iff it starts with ❌, and blue otherwise. |
| StudentScan.ScanOutcomeColour | frontend/src/pages/StudentScan.tsx:39-42 | The box is green exactly when ok holds and the status is exactly VALID. Otherwise it is red, including ok with another status. |
| StudentScan.EnrollOutcomeColour | frontend/src/pages/StudentScan.tsx:21-27 | The box is green exactly for an ok reply. Otherwise it is red. |
| StudentScan.FirstNonEmpty | frontend/src/pages/StudentScan.tsx:42 | `status \|\| message \|\| 'Unknown error'`, where an empty string counts as absent. |
| StudentScan.NoticesAreBlue | frontend/src/pages/StudentScan.tsx:14-18 | The prompt and the waiting lines are shown in blue. |
| StudentScan.StudentScanPage.constructor | frontend/src/pages/StudentScan.tsx:7-10 | The first render: an empty roll number and result, not loading, and the modal closed. |
| StudentScan.StudentScanPage.OpenEnrollModal | frontend/src/pages/StudentScan.tsx:67 | The modal opens. |
| StudentScan.StudentScanPage.TypeRollNo | frontend/src/pages/StudentScan.tsx:103-104 | The roll number becomes exactly the typed text. |
| StudentScan.StudentScanPage.StartWaiting | frontend/src/pages/StudentScan.tsx:17-18 | Loading is on and the waiting notice is shown. |
| StudentScan.StudentScanPage.HandleEnroll | frontend/src/pages/StudentScan.tsx:12-32 | A blank roll (after trim) gets the prompt and no call. Otherwise the untrimmed roll is sent, the outcome is shown, loading ends false, and the modal closes. |
| StudentScan.StudentScanPage.HandleScan | frontend/src/pages/StudentScan.tsx:34-49 | The scan is sent without an id, its outcome is shown, and loading ends false. |

## Left out

- **Camera, vision and console.** Camera access and the OpenCV/pyzbar/face_recognition calls are inputs. The face distance is an ordered real, not a computed one. The window, `print`, `input` and colour output are not modelled. backend/camera_manager.py is not part of this model.
- **File I/O.** JSON and CSV reading and writing are modelled as maps and sequences. Not modelled:
  - CSV quoting;
  - subject names that form other paths;
  - slots.json and groups.json changing while the server runs (they are constant);
  - the order of keys in groups.json (taken as the order of the group table).
- **Flask and fetch plumbing.** HTTP status codes, JSON text and CORS are not modelled. The JSON bodies are lists of string-valued keys. A request body that is not valid JSON, or that holds non-string values, is not modelled.
- **Decoding malformed escapes.**
  - QueryString.Unquote: keeps text with a malformed escape unchanged, where Python substitutes U+FFFD for bad UTF-8.
  - `%` followed by one non-hex character is kept as typed in both.
  - Only values the client encodes are claimed to round-trip.
- Wire.Lookup: takes the first entry with a key. For JSON bodies, `json.loads` keeps the last of a repeated key. For headers, Werkzeug matches names without regard to case. Neither difference is modelled, because the client sends one entry per key, spelled as the backend reads it.
- App.Server.constructor: requires every existing subject CSV to start with the header line. An existing empty file is not modelled. With one, append_attendance writes no header, and DictReader takes the first row as the header.
- UriComponent.Encode: takes characters as Unicode scalar values. So the URIError that encodeURIComponent throws for a lone surrogate is not modelled.
- FaceScan.ConsoleCheckMatchesScanner: `\d` and `str.isdigit` are both modelled on ASCII digits, so the lemma covers ASCII text only. In Python they differ. `str.isdigit` also accepts digits that are not decimal, such as superscripts ('²') and circled digits ('①'). `\d` accepts only decimal digits (category Nd). So the console can enrol a roll such as "²²²²²²²²²" that the scanner never accepts.
- **Scanner text and errors.**
  - The barcode bytes are taken as already-decoded text. A UTF-8 decode error of a barcode is one of the `Raised` events.
  - FaceScan.FaceDatabase.EnrollStudentApi: the exception path ("Enrollment failed: ...") is not modelled, because enroll_student's capture is an input here.
- **Unmodelled fields.**
  - App.Server.Login: the login timestamp stored per session is an input. The uuid's randomness is only modelled as freshness.
  - Scan distances are reals, without float precision.
- **Rendering and routing glue.** Only the final state after each handler is modelled. The intermediate "loading" renders, logout, navigation, App.tsx, Index.tsx, SlotPicker.tsx, AdminLogin.tsx and Debug.tsx are not modelled.
