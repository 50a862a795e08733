/**
 * The browser client and the Flask backend together: what the backend reads
 * from each request ApiClient builds, and what the client gets back.
 */
module ClientServer {
  import opened Wrappers
  import opened Wire
  import UriComponent
  import QueryString
  import Api
  import App
  import BarcodeScanner
  import FaceData
  import StudentScan
  import AdminDashboard
  import AttendanceTable

  /** The backend recovers exactly the token the client put in its Authorization header. */
  lemma BearerRoundTrip(token: string, sessions: map<string, string>)
    ensures App.CheckToken(Api.AuthorizationValue(token), sessions) == if token in sessions then Some(token) else None
  {
    var v := Api.AuthorizationValue(token);
    assert BEARER <= v;
  }

  /** What the backend reads as `request.headers.get("Authorization", "")`. */
  function AuthHeader(r: Api.Request): string {
    Lookup(r.headers, "Authorization").GetOr("")
  }

  /**
   * The backend's `request.args` of a getAttendance URL hold the subject and
   * the date the client was given (the date only when non-empty), whatever
   * characters they contain: encoding keeps '&', '=', '#' and '+' of the
   * values from being read as delimiters.
   */
  lemma AttendanceQueryRoundTrip(client: Api.ApiClient, subject: string, date: Option<string>, token: string)
    requires '?' !in client.base && '#' !in client.base
    ensures var args := QueryString.Args(client.AttendanceRequest(subject, date, token).url);
      && Lookup(args, "subject") == Some(subject)
      && Lookup(args, "date") == if Api.Present(date) then date else None
  {
    AttendanceUrlQuery(client, subject, date, token);
    AttendanceQueryArgs(subject, date);
  }

  /** The query the backend takes from a getAttendance URL is the one the client wrote. */
  lemma AttendanceUrlQuery(client: Api.ApiClient, subject: string, date: Option<string>, token: string)
    requires '?' !in client.base && '#' !in client.base
    ensures QueryString.QueryOf(client.AttendanceRequest(subject, date, token).url) == Api.AttendanceQuery(subject, date)
  {
    var url := client.AttendanceRequest(subject, date, token).url;
    var path := client.base + "/api/admin/attendance";
    var q := Api.AttendanceQuery(subject, date);
    assert url == path + ['?'] + q;
    assert '#' !in q by {
      NoHashInQuery(subject, date);
    }
    assert '#' !in path && '?' !in path by {
      assert forall c :: c in "/api/admin/attendance" ==> c != '#' && c != '?';
    }
    assert '#' !in url;
    QueryString.IndexOfAfter(path, '?', q);
  }

  lemma NoHashInQuery(subject: string, date: Option<string>)
    ensures '#' !in Api.AttendanceQuery(subject, date)
  {
    UriComponent.EncodeHasNoDelimiters(subject);
    if Api.Present(date) {
      UriComponent.EncodeHasNoDelimiters(date.value);
    }
  }

  /** The arguments of the client's query: the subject, then the date when there is one. */
  lemma AttendanceQueryArgs(subject: string, date: Option<string>)
    ensures QueryString.Pairs(QueryString.Split(Api.AttendanceQuery(subject, date), '&')) ==
      [("subject", subject)] + if Api.Present(date) then [("date", date.value)] else []
  {
    if Api.Present(date) {
      ArgsWithDate(subject, date.value);
    } else {
      ArgsWithoutDate(subject);
    }
  }

  lemma ArgsWithDate(subject: string, date: string)
    requires date != ""
    ensures QueryString.Pairs(QueryString.Split(Api.AttendanceQuery(subject, Some(date)), '&')) ==
      [("subject", subject), ("date", date)]
  {
    var a, b := "subject=" + UriComponent.Encode(subject), "date=" + UriComponent.Encode(date);
    QueryWithDate(subject, date);
    SubjectPair(subject);
    DatePair(date);
    SplitTwo(a, b);
  }

  /** With a date the query is the subject pair and the date pair joined by '&'. */
  lemma QueryWithDate(subject: string, date: string)
    requires date != ""
    ensures Api.AttendanceQuery(subject, Some(date)) ==
      ("subject=" + UriComponent.Encode(subject)) + "&" + ("date=" + UriComponent.Encode(date))
  {
    assert "&date=" == "&" + "date=";
  }

  lemma ArgsWithoutDate(subject: string)
    ensures QueryString.Pairs(QueryString.Split(Api.AttendanceQuery(subject, None), '&')) == [("subject", subject)]
  {
    SubjectPair(subject);
    SplitOne("subject=" + UriComponent.Encode(subject));
  }

  /** `subject=` + an encoded value is a non-empty pair without '&' that reads as ("subject", value). */
  lemma SubjectPair(value: string)
    ensures var p := "subject=" + UriComponent.Encode(value);
      p != "" && '&' !in p && QueryString.ParsePair(p) == ("subject", value)
  {
    EncodedPair("subject", value);
    assert "subject" + "=" == "subject=";
  }

  /** `date=` + an encoded value is a non-empty pair without '&' that reads as ("date", value). */
  lemma DatePair(value: string)
    ensures var p := "date=" + UriComponent.Encode(value);
      p != "" && '&' !in p && QueryString.ParsePair(p) == ("date", value)
  {
    EncodedPair("date", value);
    assert "date" + "=" == "date=";
  }

  lemma EncodedPair(key: string, value: string)
    requires forall c :: c in key ==> 'a' <= c <= 'z'
    ensures var p := key + "=" + UriComponent.Encode(value);
      p != "" && '&' !in p && QueryString.ParsePair(p) == (key, value)
  {
    UriComponent.EncodeHasNoDelimiters(value);
    QueryString.ParseEncodedPair(key, value);
  }

  lemma SplitOne(a: string)
    requires a != "" && '&' !in a
    ensures QueryString.Pairs(QueryString.Split(a, '&')) == [QueryString.ParsePair(a)]
  {
    assert QueryString.Join([a], '&') == a;
    QueryString.SplitJoin([a], '&');
  }

  lemma SplitTwo(a: string, b: string)
    requires a != "" && '&' !in a && b != "" && '&' !in b
    ensures QueryString.Pairs(QueryString.Split(a + "&" + b, '&')) == [QueryString.ParsePair(a), QueryString.ParsePair(b)]
  {
    assert QueryString.Join([a, b], '&') == a + "&" + b;
    QueryString.SplitJoin([a, b], '&');
    assert QueryString.Pairs([a, b]) == [QueryString.ParsePair(a)] + QueryString.Pairs([b]);
  }

  /**
   * getAttendance against the backend: rows come back exactly when the token
   * is a live session and the subject is non-empty, and they are the subject's
   * logged rows on the requested date (all of them without a date), in file
   * order; otherwise `data.rows` is undefined.
   */
  method FetchAttendance(server: App.Server, client: Api.ApiClient, subject: string, date: Option<string>, token: string)
    returns (reply: AttendanceResponse)
    requires server.Valid()
    requires '?' !in client.base && '#' !in client.base
    ensures Api.RowsOf(reply).Some? <==> token in server.sessions && token != "" && subject != ""
    ensures Api.RowsOf(reply).Some? && subject !in server.logs ==> Api.RowsOf(reply).value == []
    ensures Api.RowsOf(reply).Some? && subject in server.logs ==>
      Api.RowsOf(reply).value == App.Filtered(App.Records(server.logs[subject]), if Api.Present(date) then date else None)
    ensures Api.RowsOf(reply).Some? && subject in server.logs && !Api.Present(date) ==>
      Api.RowsOf(reply).value == App.Records(server.logs[subject])
  {
    var request := client.AttendanceRequest(subject, date, token);
    var args := QueryString.Args(request.url);
    AttendanceQueryRoundTrip(client, subject, date, token);
    BearerRoundTrip(token, server.sessions);
    reply := server.Attendance(AuthHeader(request), Lookup(args, "subject"), Lookup(args, "date"));
    if reply.rows.Some? && subject in server.logs && !Api.Present(date) {
      App.FilteredWithoutDate(App.Records(server.logs[subject]), None);
    }
  }

  /**
   * "View Attendance" on the dashboard, answered by the backend: with a live
   * session the page shows the subject's rows on the chosen date (nothing
   * when there are none); with a token the backend no longer knows, the rows
   * come back undefined and rendering the page throws.
   */
  method ViewAttendance(server: App.Server, page: AdminDashboard.Dashboard)
    requires server.Valid()
    requires page.HasToken() && page.attendanceSubject != ""
    requires '?' !in page.client.base && '#' !in page.client.base
    modifies page
    ensures !page.loadingAttendance
    ensures page.token.value !in server.sessions ==> page.AttendanceSection() == AdminDashboard.Crashed
    ensures page.token.value in server.sessions ==>
      var subject, date := page.attendanceSubject, AdminDashboard.DateFilter(page.attendanceDate);
      var rows := if subject in server.logs then App.Filtered(App.Records(server.logs[subject]), date) else [];
      page.AttendanceSection() == if rows == [] then AdminDashboard.Hidden else AdminDashboard.Shown(AttendanceTable.Render(rows))
  {
    var date := AdminDashboard.DateFilter(page.attendanceDate);
    var reply := FetchAttendance(server, page.client, page.attendanceSubject, date, page.token.value);
    var sent := page.HandleViewAttendance(Some(reply));
  }

  /** The slot a scan request runs against: the requested one for a non-empty id, the active one otherwise. */
  lemma ScanRequestSelectsSlot(client: Api.ApiClient, expectedSlotId: Option<string>, slots: seq<Slot>, active: Option<Slot>)
    ensures var body := client.ScanRequest(expectedSlotId).body.value;
      App.ChosenSlot(slots, Lookup(body, "expected_slot_id"), active) ==
        if Api.Present(expectedSlotId) then App.SlotWithId(slots, expectedSlotId) else active
  {
  }

  /**
   * The set_slot request as the backend reads it: the active slot becomes the
   * first slot with the picked id exactly when the token is a live session.
   */
  method SetSlotOverHttp(server: App.Server, client: Api.ApiClient, slotId: string, token: string)
    returns (r: SetSlotResponse)
    requires server.Valid()
    modifies server`activeSlot
    ensures server.Valid()
    ensures r.ok <==> token in server.sessions && token != "" && App.SlotWithId(server.slots, Some(slotId)).Some?
    ensures r.ok ==> server.activeSlot == App.SlotWithId(server.slots, Some(slotId)) && r.active == server.activeSlot
    ensures !r.ok ==> server.activeSlot == old(server.activeSlot)
  {
    var request := client.SetActiveSlotRequest(slotId, token);
    BearerRoundTrip(token, server.sessions);
    r := server.SetSlot(AuthHeader(request), Lookup(request.body.value, "slot_id"));
  }

  /** A reply the scan endpoint can send: "No active slot", or a scanner result after the group checks. */
  ghost predicate ScanEndpointReply(r: ScanResponse) {
    || r == App.NoActiveSlot
    || exists scan: ScanResponse, group: Option<string>, slot: Slot ::
         BarcodeScanner.WellFormedResult(scan) && r == App.PostProcess(scan, None, group, slot)
  }

  /** A successful reply of the scan endpoint always carries the roll number it marked. */
  lemma SuccessfulScanNamesRoll(r: ScanResponse)
    requires ScanEndpointReply(r)
    ensures r.ok ==> r.rollNo.Some? && r.status == Some(VALID)
  {
    if r != App.NoActiveSlot {
      var scan: ScanResponse, group: Option<string>, slot: Slot :|
        BarcodeScanner.WellFormedResult(scan) && r == App.PostProcess(scan, None, group, slot);
      assert r.ok ==> scan.ok;
    }
  }

  /**
   * What the student page shows for any reply of the scan endpoint: the
   * marked roll number on success (never "undefined"), otherwise the status,
   * or "No active slot" when there was no slot to scan against.
   */
  lemma ScanPageShowsOutcome(r: ScanResponse)
    requires ScanEndpointReply(r)
    ensures StudentScan.ScanSucceeded(r) <==> r.ok
    ensures r.ok ==> StudentScan.ScanMessage(Some(r)) == StudentScan.Success("Attendance marked for " + r.rollNo.value)
    ensures r == App.NoActiveSlot ==> StudentScan.ScanMessage(Some(r)) == StudentScan.Failure("Scan failed: No active slot")
    ensures !r.ok && r != App.NoActiveSlot ==>
      r.status.Some? && StudentScan.ScanMessage(Some(r)) == StudentScan.Failure("Scan failed: " + r.status.value)
  {
    SuccessfulScanNamesRoll(r);
    if r != App.NoActiveSlot {
      var scan: ScanResponse, group: Option<string>, slot: Slot :|
        BarcodeScanner.WellFormedResult(scan) && r == App.PostProcess(scan, None, group, slot);
      assert r.status.Some? && r.status.value != "";
    }
  }

  /** The student page's scan carries no slot id, so it always runs against the active slot. */
  lemma StudentScanUsesActiveSlot(client: Api.ApiClient, slots: seq<Slot>, active: Option<Slot>)
    ensures var body := client.ScanRequest(None).body.value;
      App.ChosenSlot(slots, Lookup(body, "expected_slot_id"), active) == active
  {
    ScanRequestSelectsSlot(client, None, slots, active);
  }

  /** An API base without '?' or '#', such as the default one, meets the requires of the query lemmas. */
  lemma DefaultBaseIsPlain(env: Option<string>)
    requires env.Some? && env.value != "" ==> '?' !in env.value && '#' !in env.value
    ensures '?' !in Api.ApiBase(env) && '#' !in Api.ApiBase(env)
  {
    assert forall c :: c in Api.DEFAULT_API_BASE ==> c != '?' && c != '#';
  }

  /**
   * The query round trip for the client api.ts exports, built on the
   * VITE_API_BASE setting (or the default when it is unset or empty).
   */
  lemma ExportedClientQueryRoundTrip(env: Option<string>, subject: string, date: Option<string>, token: string)
    requires env.Some? && env.value != "" ==> '?' !in env.value && '#' !in env.value
    ensures var client := Api.ApiClient(Api.ApiBase(env));
      var args := QueryString.Args(client.AttendanceRequest(subject, date, token).url);
      && Lookup(args, "subject") == Some(subject)
      && Lookup(args, "date") == if Api.Present(date) then date else None
  {
    DefaultBaseIsPlain(env);
    AttendanceQueryRoundTrip(Api.ApiClient(Api.ApiBase(env)), subject, date, token);
  }

  /**
   * loadSlots answered by the backend's /api/slots: the dashboard holds the
   * slots of slots.json, and its subject drop-down offers exactly their
   * subjects, each once.
   */
  method LoadSlotsFromServer(server: App.Server, page: AdminDashboard.Dashboard)
    modifies page
    ensures page.slots == server.slots
    ensures forall s :: s in page.SubjectChoices() <==> exists sl :: sl in server.slots && sl.subject == s
    ensures forall i, j :: 0 <= i < j < |page.SubjectChoices()| ==> page.SubjectChoices()[i] != page.SubjectChoices()[j]
  {
    var sent := page.LoadSlots(Some(server.GetSlots()));
    AdminDashboard.DistinctInFirstOccurrenceOrder(AdminDashboard.SubjectsOf(page.slots));
    forall s ensures s in page.SubjectChoices() <==> exists sl :: sl in server.slots && sl.subject == s {
      if s in page.SubjectChoices() {
        var i :| 0 <= i < |server.slots| && server.slots[i].subject == s;
        assert server.slots[i] in server.slots;
      }
    }
  }

  /**
   * A scan request answered by the backend's /api/scan: the reply is one the
   * scan endpoint can send, so the page lemmas above apply to it.
   */
  method ScanOverHttp(server: App.Server, client: Api.ApiClient, expectedSlotId: Option<string>,
                      camera: BarcodeScanner.Camera, faceFile: FaceData.DbFile, today: string, now: string)
    returns (r: ScanResponse)
    requires server.Valid()
    modifies server`logs
    ensures server.Valid()
    ensures ScanEndpointReply(r)
    ensures r.ok ==> r.rollNo.Some? && r.status == Some(VALID)
    ensures StudentScan.ScanSucceeded(r) <==> r.ok
  {
    var request := client.ScanRequest(expectedSlotId);
    var slotId := Lookup(request.body.value, "expected_slot_id");
    r := server.Scan(slotId, camera, faceFile, today, now);
    var slot := App.ChosenSlot(server.slots, slotId, server.activeSlot);
    if slot.Some? {
      var scanned := BarcodeScanner.Scan(slot.value.students, App.SCAN_TIMEOUT, camera, faceFile);
      BarcodeScanner.ScanIsWellFormed(slot.value.students, App.SCAN_TIMEOUT, camera, faceFile);
      var group := if scanned.rollNo.Some? then App.GroupOf(server.groups, scanned.rollNo.value) else None;
      assert BarcodeScanner.WellFormedResult(scanned) && r == App.PostProcess(scanned, None, group, slot.value);
    }
    ScanPageShowsOutcome(r);
  }
}
