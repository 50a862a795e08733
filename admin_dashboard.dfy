/**
 * The AdminDashboard page: the subject list built from the slots, loading
 * the slots and the active slot, setting the active slot, and viewing a
 * subject's attendance. Each handler takes the reply it awaits as a
 * parameter (None when the call throws) and returns the request it sends
 * (None when a guard returns first); the page state is the final one, after
 * the `finally` block.
 */
module AdminDashboard {
  import opened Wrappers
  import opened Wire
  import Text
  import Api
  import AttendanceTable

  // ---- The subject list ----

  /** `Array.from(new Set(xs))`: each value once, at the place of its first occurrence. */
  function Distinct(xs: seq<string>): (r: seq<string>)
    ensures |r| <= |xs|
    ensures forall x :: x in r <==> x in xs
    decreases |xs|
  {
    if xs == [] then []
    else
      var init, last := xs[..|xs| - 1], xs[|xs| - 1];
      assert xs == init + [last];
      var r := Distinct(init);
      if last in r then r else r + [last]
  }

  /** The position of the first occurrence of a value that `xs` holds. */
  function FirstIndex(xs: seq<string>, x: string): (k: nat)
    requires x in xs
    ensures k < |xs| && xs[k] == x && x !in xs[..k]
  {
    Text.IndexOf(xs, x).value
  }

  /** Appending never moves the first occurrence of a value already present. */
  lemma {:induction false} FirstIndexInPrefix(xs: seq<string>, ys: seq<string>, x: string)
    requires x in xs
    ensures FirstIndex(xs + ys, x) == FirstIndex(xs, x)
  {
    var k := FirstIndex(xs, x);
    var zs := xs + ys;
    assert zs[k] == x && zs[..k] == xs[..k];
  }

  /** The list holds no value twice and keeps the order in which values first occur. */
  lemma {:induction false} DistinctInFirstOccurrenceOrder(xs: seq<string>)
    ensures forall i, j :: 0 <= i < j < |Distinct(xs)| ==>
      Distinct(xs)[i] != Distinct(xs)[j] && FirstIndex(xs, Distinct(xs)[i]) < FirstIndex(xs, Distinct(xs)[j])
    decreases |xs|
  {
    if xs != [] {
      var init, last := xs[..|xs| - 1], xs[|xs| - 1];
      assert xs == init + [last];
      var r := Distinct(init);
      DistinctInFirstOccurrenceOrder(init);
      forall y | y in init
        ensures FirstIndex(xs, y) == FirstIndex(init, y) < |init|
      {
        FirstIndexInPrefix(init, [last], y);
      }
      if last !in r {
        assert last !in init;
        assert FirstIndex(xs, last) == |xs| - 1 by {
          assert xs[..|xs| - 1] == init;
        }
        var r' := r + [last];
        assert Distinct(xs) == r';
        forall i, j | 0 <= i < j < |r'|
          ensures r'[i] != r'[j] && FirstIndex(xs, r'[i]) < FirstIndex(xs, r'[j])
        {
          assert r'[i] == r[i] && r[i] in r && r[i] in init;
          if j < |r| {
            assert r'[j] == r[j] && r[j] in r && r[j] in init;
          } else {
            assert r'[j] == last;
          }
        }
      } else {
        assert Distinct(xs) == r;
        forall i, j | 0 <= i < j < |r|
          ensures r[i] != r[j] && FirstIndex(xs, r[i]) < FirstIndex(xs, r[j])
        {
          assert r[i] in r && r[j] in r && r[i] in init && r[j] in init;
        }
      }
    }
  }

  function SubjectsOf(slots: seq<Slot>): (subjects: seq<string>)
    ensures |subjects| == |slots|
    ensures forall i :: 0 <= i < |slots| ==> subjects[i] == slots[i].subject
  {
    seq(|slots|, i requires 0 <= i < |slots| => slots[i].subject)
  }

  /** The subject choices: each slot's subject once, in the order of the slots. */
  function Subjects(slots: seq<Slot>): (r: seq<string>)
    ensures |r| <= |slots|
    ensures forall s :: s in r <==> exists i :: 0 <= i < |slots| && slots[i].subject == s
  {
    var subjects := Distinct(SubjectsOf(slots));
    assert forall s :: s in SubjectsOf(slots) <==> exists i :: 0 <= i < |slots| && slots[i].subject == s by {
      forall s | s in SubjectsOf(slots)
        ensures exists i :: 0 <= i < |slots| && slots[i].subject == s
      {
        var i :| 0 <= i < |slots| && SubjectsOf(slots)[i] == s;
      }
    }
    subjects
  }

  // ---- Page state ----

  /** The message of set_slot's outcome: None for a call that threw. */
  function SetSlotMessage(reply: Option<SetSlotResponse>): (m: string)
    ensures reply.Some? && reply.value.ok ==> m == "✅ " + reply.value.message
    ensures reply.Some? && !reply.value.ok ==> m == "Failed to set slot"
    ensures reply.None? ==> m == "Error setting slot"
  {
    match reply
    case None => "Error setting slot"
    case Some(r) => if r.ok then "✅ " + r.message else "Failed to set slot"
  }

  /** `attendanceDate || undefined`. */
  function DateFilter(date: string): (d: Option<string>)
    ensures d.None? <==> date == ""
    ensures d.Some? ==> d.value == date
  {
    if date == "" then None else Some(date)
  }

  /** What the attendance part of the page shows. */
  datatype AttendanceView =
    | Hidden            // no records: the table is not rendered at all
    | Shown(table: AttendanceTable.Table)
    | Crashed           // `attendanceRecords.length` on undefined throws TypeError

  class Dashboard {
    const client: Api.ApiClient
    const token: Option<string>   // from the authentication context; None when logged out
    var slots: seq<Slot>
    var selectedSlot: string
    var activeSlot: Option<Slot>
    var loading: bool
    var message: string
    var attendanceSubject: string
    var attendanceDate: string
    var attendanceRecords: Option<seq<AttendanceRecord>>  // None: undefined
    var loadingAttendance: bool

    /** The page's first render. */
    constructor (client: Api.ApiClient, token: Option<string>)
      ensures this.client == client && this.token == token
      ensures slots == [] && selectedSlot == "" && activeSlot == None && !loading && message == ""
      ensures attendanceSubject == "" && attendanceDate == "" && attendanceRecords == Some([]) && !loadingAttendance
    {
      this.client := client;
      this.token := token;
      slots := [];
      selectedSlot := "";
      activeSlot := None;
      loading := false;
      message := "";
      attendanceSubject := "";
      attendanceDate := "";
      attendanceRecords := Some([]);
      loadingAttendance := false;
    }

    /** `!token` is false. */
    predicate HasToken()
      reads this
    {
      token.Some? && token.value != ""
    }

    /** The subject drop-down. */
    function SubjectChoices(): seq<string>
      reads this
    {
      Subjects(slots)
    }

    /** loadSlots. */
    method LoadSlots(reply: Option<SlotsResponse>) returns (sent: Api.Request)
      modifies this`slots, this`message
      ensures sent == client.SlotsRequest()
      ensures reply.Some? ==> slots == Api.SlotsOf(reply.value) && message == old(message)
      ensures reply.None? ==> slots == old(slots) && message == "Failed to load slots"
    {
      sent := client.SlotsRequest();
      if reply.None? {
        message := "Failed to load slots";
      } else {
        slots := Api.SlotsOf(reply.value);
      }
    }

    /** loadActiveSlot: `data.active_slot`, which is undefined (None) in an error reply. */
    method LoadActiveSlot(reply: Option<ActiveSlotResponse>) returns (sent: Option<Api.Request>)
      modifies this`activeSlot
      ensures !HasToken() ==> sent.None? && activeSlot == old(activeSlot)
      ensures HasToken() ==> sent == Some(client.ActiveSlotRequest(token.value))
      ensures HasToken() && reply.Some? ==> activeSlot == reply.value.activeSlot
      ensures reply.None? ==> activeSlot == old(activeSlot)
    {
      if !HasToken() {
        return None;
      }
      sent := Some(client.ActiveSlotRequest(token.value));
      if reply.Some? {
        activeSlot := reply.value.activeSlot;
      }
    }

    /**
     * handleSetSlot: nothing happens without a picked slot or a token;
     * otherwise the outcome is reported, the active slot is replaced only by
     * a successful reply, and loading ends.
     */
    method HandleSetSlot(reply: Option<SetSlotResponse>) returns (sent: Option<Api.Request>)
      modifies this`loading, this`message, this`activeSlot
      ensures selectedSlot == "" || !HasToken() ==>
        sent.None? && loading == old(loading) && message == old(message) && activeSlot == old(activeSlot)
      ensures selectedSlot != "" && HasToken() ==>
        && sent == Some(client.SetActiveSlotRequest(selectedSlot, token.value))
        && !loading
        && message == SetSlotMessage(reply)
        && activeSlot == if reply.Some? && reply.value.ok then reply.value.active else old(activeSlot)
    {
      if selectedSlot == "" || !HasToken() {
        return None;
      }
      loading := true;
      message := "";
      sent := Some(client.SetActiveSlotRequest(selectedSlot, token.value));
      if reply.Some? && reply.value.ok {
        activeSlot := reply.value.active;
      }
      message := SetSlotMessage(reply);
      loading := false;
    }

    /**
     * handleViewAttendance: nothing happens without a subject or a token;
     * otherwise the records become the reply's rows (undefined when it has
     * none), a call that throws leaves them and reports the failure, and
     * loading ends.
     */
    method HandleViewAttendance(reply: Option<AttendanceResponse>) returns (sent: Option<Api.Request>)
      modifies this`loadingAttendance, this`attendanceRecords, this`message
      ensures attendanceSubject == "" || !HasToken() ==>
        && sent.None? && loadingAttendance == old(loadingAttendance)
        && attendanceRecords == old(attendanceRecords) && message == old(message)
      ensures attendanceSubject != "" && HasToken() ==>
        && sent == Some(client.AttendanceRequest(attendanceSubject, DateFilter(attendanceDate), token.value))
        && !loadingAttendance
        && (reply.Some? ==> attendanceRecords == Api.RowsOf(reply.value) && message == old(message))
        && (reply.None? ==> attendanceRecords == old(attendanceRecords) && message == "Failed to load attendance")
    {
      if attendanceSubject == "" || !HasToken() {
        return None;
      }
      loadingAttendance := true;
      sent := Some(client.AttendanceRequest(attendanceSubject, DateFilter(attendanceDate), token.value));
      if reply.None? {
        message := "Failed to load attendance";
      } else {
        attendanceRecords := Api.RowsOf(reply.value);
      }
      loadingAttendance := false;
    }

    /** `attendanceRecords.length > 0 && <AttendanceTable records={attendanceRecords} />`. */
    function AttendanceSection(): (v: AttendanceView)
      reads this
      ensures v == Crashed <==> attendanceRecords.None?
      ensures v.Shown? <==> attendanceRecords.Some? && |attendanceRecords.value| > 0
      ensures v.Shown? ==> v.table == AttendanceTable.Render(attendanceRecords.value)
    {
      match attendanceRecords
      case None => Crashed
      case Some(rs) => if |rs| > 0 then Shown(AttendanceTable.Render(rs)) else Hidden
    }
  }

  /** The dashboard never shows the table's "No attendance records found" notice. */
  lemma NoEmptyNotice(d: Dashboard)
    ensures d.AttendanceSection().Shown? ==> !d.AttendanceSection().table.emptyNotice
  {
  }
}
