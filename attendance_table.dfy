/**
 * The AttendanceTable component: one row per attendance record, in order,
 * with the status shown in a colour chosen by getStatusColor, and a notice
 * when there are no records.
 */
module AttendanceTable {
  import opened Wire

  datatype Colour = Green | Red | Orange | Purple | Gray

  /** The colour getStatusColor gives a status. */
  function StatusColour(status: string): (c: Colour)
    ensures c == Green <==> status == VALID
    ensures c == Red <==> status == FACE_MISMATCH || status == INVALID
    ensures c == Orange <==> status == NO_FACE
    ensures c == Purple <==> status == NOT_IN_ACTIVE_GROUP
  {
    if status == VALID then Green
    else if status == FACE_MISMATCH || status == INVALID then Red
    else if status == NO_FACE then Orange
    else if status == NOT_IN_ACTIVE_GROUP then Purple
    else Gray
  }

  /** The Tailwind name of each colour. */
  function ColourWord(c: Colour): string {
    match c
    case Green => "green"
    case Red => "red"
    case Orange => "orange"
    case Purple => "purple"
    case Gray => "gray"
  }

  /** The CSS classes of each colour: `bg-<colour>-100 text-<colour>-800 border-<colour>-300`. */
  function ClassName(c: Colour): string {
    var w := ColourWord(c);
    "bg-" + w + ("-100 text-" + w + "-800 border-" + w + "-300")
  }

  /** getStatusColor. */
  function StatusClasses(status: string): string {
    ClassName(StatusColour(status))
  }

  /** The colour a badge's classes name, read off the colour word after `bg-`. */
  function ColourNamed(classes: string): Colour {
    if |classes| < 6 then Gray
    else if classes[3] == 'g' && classes[5] == 'e' then Green
    else if classes[3] == 'r' then Red
    else if classes[3] == 'o' then Orange
    else if classes[3] == 'p' then Purple
    else Gray
  }

  /** The classes of a colour name that colour, so different colours have different classes. */
  lemma ClassNameNamesColour(c: Colour)
    ensures ColourNamed(ClassName(c)) == c
  {
    var w := ColourWord(c);
    var rest := "-100 text-" + w + "-800 border-" + w + "-300";
    assert ClassName(c) == "bg-" + w + rest;
    assert ("bg-" + w + rest)[3] == w[0] && ("bg-" + w + rest)[5] == w[2];
  }

  lemma ClassNamesDiffer(c: Colour, d: Colour)
    requires c != d
    ensures ClassName(c) != ClassName(d)
  {
    ClassNameNamesColour(c);
    ClassNameNamesColour(d);
  }

  /** Two statuses share a badge exactly when they share a colour. */
  lemma SameBadgeSameColour(s: string, t: string)
    ensures StatusClasses(s) == StatusClasses(t) <==> StatusColour(s) == StatusColour(t)
  {
    if StatusColour(s) != StatusColour(t) {
      ClassNamesDiffer(StatusColour(s), StatusColour(t));
    }
  }

  /**
   * Every status the backend writes to a log other than VALID, FACE_MISMATCH,
   * NO_FACE and NOT_IN_ACTIVE_GROUP is shown in gray.
   */
  lemma OtherLoggedStatusesAreGray(status: string)
    requires status in {INVALID_FORMAT, NOT_PART_OF_CLASS, NO_RECORD, NOT_ENROLLED, NO_GROUP}
    ensures StatusColour(status) == Gray
  {
  }

  /** One table row: the record's fields, the status with its badge classes. */
  datatype Row = Row(date: string, slot: string, rollNo: string, status: string, badge: string, timestamp: string)

  datatype Table = Table(rows: seq<Row>, emptyNotice: bool)

  function RowOf(r: AttendanceRecord): Row {
    Row(r.date, r.slot, r.rollNo, r.status, StatusClasses(r.status), r.timestamp)
  }

  /** What a row shows of its record. */
  function RecordOf(row: Row): AttendanceRecord {
    AttendanceRecord(row.date, row.slot, row.rollNo, row.status, row.timestamp)
  }

  /** The component: a row per record in order, and the "No attendance records found" notice for none. */
  function Render(records: seq<AttendanceRecord>): (t: Table)
    ensures |t.rows| == |records|
    ensures forall i :: 0 <= i < |records| ==> t.rows[i] == RowOf(records[i])
    ensures t.emptyNotice <==> |records| == 0
  {
    Table(seq(|records|, i requires 0 <= i < |records| => RowOf(records[i])), |records| == 0)
  }

  /** The rows show every record completely and in order: reading them back gives the records. */
  lemma RenderShowsEveryRecord(records: seq<AttendanceRecord>)
    ensures var rows := Render(records).rows;
      seq(|rows|, i requires 0 <= i < |rows| => RecordOf(rows[i])) == records
    ensures forall i :: 0 <= i < |records| ==> Render(records).rows[i].badge == StatusClasses(records[i].status)
  {
    var rows := Render(records).rows;
    assert forall i :: 0 <= i < |rows| ==> RecordOf(rows[i]) == records[i];
  }
}
