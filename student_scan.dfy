/**
 * The StudentScan page: enrolment and attendance scans started from the
 * browser, the result line each one leaves, and the colour of the box that
 * shows it.
 */
module StudentScan {
  import opened Wrappers
  import opened Text
  import opened Wire
  import Api

  /** `${x}` of an optional string: the text itself, or "undefined". */
  function TemplateText(x: Option<string>): (t: string)
    ensures x.Some? ==> t == x.value
    ensures x.None? ==> t == "undefined"
  {
    x.GetOr("undefined")
  }

  /** `a || b || fallback` over optional strings: the first present, non-empty one. */
  function FirstNonEmpty(a: Option<string>, b: Option<string>, fallback: string): (t: string)
    ensures a.Some? && a.value != "" ==> t == a.value
    ensures (a.None? || a.value == "") && b.Some? && b.value != "" ==> t == b.value
    ensures (a.None? || a.value == "") && (b.None? || b.value == "") ==> t == fallback
  {
    if a.Some? && a.value != "" then a.value
    else if b.Some? && b.value != "" then b.value
    else fallback
  }

  const ENROLL_PROMPT := "Please enter roll number"
  const CAMERA_OPENING := "Opening camera on backend..."
  const ENROLL_WAIT := CAMERA_OPENING + " Please show barcode and face."
  const SCAN_WAIT := CAMERA_OPENING + " Please show your face."

  /** A result line marked as a success. */
  function Success(text: string): (line: string)
    ensures |line| > 0 && line[0] == '✅'
  {
    "✅ " + text
  }

  /** A result line marked as a failure. */
  function Failure(text: string): (line: string)
    ensures |line| > 0 && line[0] == '❌'
  {
    "❌ " + text
  }

  /** The result line after an enrolment call; None for a call that threw. */
  function EnrollMessage(reply: Option<EnrollResponse>): string {
    match reply
    case None => Failure("Enrollment failed. Check backend is running.")
    case Some(r) => if r.ok then Success(r.message) else Failure(r.message)
  }

  /** A scan counts as successful on the page when it is ok and VALID. */
  predicate ScanSucceeded(r: ScanResponse) {
    r.ok && r.status == Some(VALID)
  }

  /** The result line after a scan call; None for a call that threw. */
  function ScanMessage(reply: Option<ScanResponse>): string {
    match reply
    case None => Failure("Scan failed. Check backend is running.")
    case Some(r) =>
      if ScanSucceeded(r) then Success("Attendance marked for " + TemplateText(r.rollNo))
      else Failure("Scan failed: " + FirstNonEmpty(r.status, r.message, "Unknown error"))
  }

  datatype BoxColour = GreenBox | RedBox | BlueBox

  /** The result box: absent for an empty result, green after ✅, red after ❌, blue otherwise. */
  function ResultBox(result: string): (b: Option<BoxColour>)
    ensures b.None? <==> result == ""
    ensures b == Some(GreenBox) <==> |result| > 0 && result[0] == '✅'
    ensures b == Some(RedBox) <==> |result| > 0 && result[0] == '❌'
  {
    if result == "" then None
    else if result[0] == '✅' then Some(GreenBox)
    else if result[0] == '❌' then Some(RedBox)
    else Some(BlueBox)
  }

  /** A scan's box is green exactly for an ok VALID reply, red otherwise. */
  lemma ScanOutcomeColour(reply: Option<ScanResponse>)
    ensures ResultBox(ScanMessage(reply)) == if reply.Some? && ScanSucceeded(reply.value) then Some(GreenBox) else Some(RedBox)
  {
  }

  /** An enrolment's box is green exactly for an ok reply, red otherwise. */
  lemma EnrollOutcomeColour(reply: Option<EnrollResponse>)
    ensures ResultBox(EnrollMessage(reply)) == if reply.Some? && reply.value.ok then Some(GreenBox) else Some(RedBox)
  {
  }

  /** The prompt and the waiting lines are shown in blue. */
  lemma NoticesAreBlue()
    ensures ResultBox(ENROLL_PROMPT) == Some(BlueBox)
    ensures ResultBox(ENROLL_WAIT) == Some(BlueBox) && ResultBox(SCAN_WAIT) == Some(BlueBox)
  {
    assert ENROLL_WAIT[0] == CAMERA_OPENING[0] == SCAN_WAIT[0];
  }

  class StudentScanPage {
    const client: Api.ApiClient
    var rollNo: string
    var loading: bool
    var result: string
    var showEnrollModal: bool

    constructor (client: Api.ApiClient)
      ensures this.client == client
      ensures rollNo == "" && !loading && result == "" && !showEnrollModal
    {
      this.client := client;
      rollNo := "";
      loading := false;
      result := "";
      showEnrollModal := false;
    }

    /** The "Enroll New Student" button. */
    method OpenEnrollModal()
      modifies this`showEnrollModal
      ensures showEnrollModal
    {
      showEnrollModal := true;
    }

    /** Typing in the roll-number field. */
    method TypeRollNo(text: string)
      modifies this`rollNo
      ensures rollNo == text
    {
      rollNo := text;
    }

    /** `setLoading(true)` and the waiting notice shown while a call is under way. */
    method StartWaiting(notice: string)
      modifies this`loading, this`result
      ensures loading && result == notice
    {
      loading := true;
      result := notice;
    }

    /**
     * handleEnroll: a roll number that is empty after trimming (all white
     * space, by Text.Strip's contract) is refused with a prompt; otherwise the untrimmed text is sent, the outcome is
     * shown, loading ends and the modal closes.
     */
    method HandleEnroll(reply: Option<EnrollResponse>) returns (sent: Option<Api.Request>)
      modifies this`loading, this`result, this`showEnrollModal
      ensures AllSpace(EcmaScript, rollNo) ==>
        sent.None? && result == ENROLL_PROMPT && loading == old(loading) && showEnrollModal == old(showEnrollModal)
      ensures !AllSpace(EcmaScript, rollNo) ==>
        sent == Some(client.EnrollRequest(rollNo)) && result == EnrollMessage(reply) && !loading && !showEnrollModal
    {
      var trimmed := Strip(EcmaScript, rollNo);
      if trimmed == "" {
        result := ENROLL_PROMPT;
        return None;
      }
      StartWaiting(ENROLL_WAIT);
      sent := Some(client.EnrollRequest(rollNo));
      result := EnrollMessage(reply);
      loading := false;
      showEnrollModal := false;
    }

    /** handleScan: the scan is sent without a slot id, its outcome is shown, and loading ends. */
    method HandleScan(reply: Option<ScanResponse>) returns (sent: Api.Request)
      modifies this`loading, this`result
      ensures sent == client.ScanRequest(None)
      ensures result == ScanMessage(reply) && !loading
    {
      StartWaiting(SCAN_WAIT);
      sent := client.ScanRequest(None);
      result := ScanMessage(reply);
      loading := false;
    }
  }
}
