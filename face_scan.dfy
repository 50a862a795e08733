/**
 * Enrolment of backend/face_scan.py: store a captured face embedding under a
 * roll number in face_data.json. The camera capture is an input: the
 * embedding it produced, or None.
 */
module FaceScan {
  import opened Wrappers
  import opened Text
  import opened Wire
  import opened FaceData
  import BarcodeScanner

  /** `if not embedding` fails for None and for an empty list. */
  predicate Captured(embedding: Option<Embedding>) {
    embedding.Some? && embedding.value != []
  }

  /**
   * The reply shaped by enroll_student_api: ok only when enrolment succeeded
   * and the reloaded database holds the roll number; the roll number is
   * always echoed.
   */
  function EnrollReply(rollNo: string, success: bool, reloaded: map<string, Embedding>): (r: EnrollResponse)
    ensures r.rollNo == Some(rollNo)
    ensures r.ok <==> success && rollNo in reloaded
  {
    if success && rollNo in reloaded then
      EnrollResponse(true, "✅ Enrollment complete for " + rollNo, Some(rollNo))
    else
      EnrollResponse(false, "No face captured. Please try again.", Some(rollNo))
  }

  /** The check in main: the stripped input is nine characters, all digits. */
  predicate ValidRollInput(line: string) {
    var rollNo := Strip(PythonStr, line);
    |rollNo| == 9 && AllDigits(rollNo)
  }

  /**
   * On ASCII digits, the console check and the scanner's ROLL_REGEX accept the same
   * stripped codes. Python's `isdigit` also takes non-decimal digits that `\d` rejects.
   */
  lemma ConsoleCheckMatchesScanner(line: string)
    ensures ValidRollInput(line) <==> BarcodeScanner.RollRegexMatches(Strip(PythonStr, line))
  {
    BarcodeScanner.StrippedRollMatches(line);
  }

  /** The face database file and the updates the enrolment script makes to it. */
  class FaceDatabase {
    var file: DbFile

    constructor (initial: DbFile)
      ensures file == initial
    {
      file := initial;
    }

    /**
     * enroll_student: without a captured embedding nothing is written;
     * otherwise the database is reloaded, the roll number's entry set (or
     * overwritten) and the whole database saved.
     */
    method EnrollStudent(rollNo: string, captured: Option<Embedding>) returns (ok: bool)
      modifies this
      ensures ok == Captured(captured)
      ensures !ok ==> file == old(file)
      ensures ok ==> file == Stored(Load(old(file))[rollNo := captured.value])
      ensures ok ==> forall r :: r in Load(old(file)) && r != rollNo ==> r in Load(file) && Load(file)[r] == Load(old(file))[r]
    {
      if !Captured(captured) {
        return false;
      }
      var db := Load(file);
      db := db[rollNo := captured.value];
      file := Stored(db);
      return true;
    }

    /** enroll_student_api: enrol, then report from a fresh load of the database. */
    method EnrollStudentApi(rollNo: string, captured: Option<Embedding>) returns (r: EnrollResponse)
      modifies this
      ensures r.rollNo == Some(rollNo)
      ensures r.ok <==> Captured(captured)
      ensures r.ok ==> file == Stored(Load(old(file))[rollNo := captured.value])
      ensures !r.ok ==> file == old(file)
    {
      var success := EnrollStudent(rollNo, captured);
      var reloaded := Load(file);
      r := EnrollReply(rollNo, success, reloaded);
    }

    /** main: strip the typed line and enrol only a nine-digit roll number. */
    method EnrollFromConsole(line: string, captured: Option<Embedding>) returns (enrolled: bool)
      modifies this
      ensures enrolled <==> ValidRollInput(line) && Captured(captured)
      ensures enrolled ==> file == Stored(Load(old(file))[Strip(PythonStr, line) := captured.value])
      ensures !enrolled ==> file == old(file)
    {
      var rollNo := Strip(PythonStr, line);
      if |rollNo| == 9 && AllDigits(rollNo) {
        enrolled := EnrollStudent(rollNo, captured);
      } else {
        enrolled := false;
      }
    }
  }

  /**
   * After an enrolment the scanner finds a record for that roll number: a
   * scan of it passing the class check never ends in NO_RECORD.
   */
  lemma EnrolledRollHasRecord(before: DbFile, rollNo: string, e: Embedding,
                              expected: Option<seq<string>>, faceFound: bool, distance: real)
    ensures BarcodeScanner.Decide(rollNo, expected, Load(Stored(Load(before)[rollNo := e])), faceFound, distance).status
         != Some(NO_RECORD)
  {
  }
}
