/** The administrator's dashboard (Frontend/src/pages/AdminDashboard.jsx):
    the list of appointments with its status and today filters, the
    counters above it, the status and delete actions that rewrite the list
    in place, and the CSV export of what is shown. The clock enters as the
    predicate `isToday`, and the browser's date formatting as `formatDate`. */
module AdminDashboard {
  import opened Common
  import opened AppointmentSchema

  // ---------------------------------------------------------------------
  // Filtering and counting
  // ---------------------------------------------------------------------

  /** `filterStatus === 'all' || appointment.status === filterStatus`. */
  predicate StatusMatches(a: Appointment, filterStatus: string) {
    filterStatus == "all" || StatusName(a.status) == filterStatus
  }

  /** The filter callback of `filteredAppointments`. */
  function ShownBy(filterStatus: string, todayOnly: bool, isToday: string -> bool): Appointment -> bool {
    (a: Appointment) => StatusMatches(a, filterStatus) && (todayOnly ==> isToday(a.appointmentDate))
  }

  /** `filteredAppointments`: the appointments the table shows, in list
      order. */
  function Filtered(appointments: seq<Appointment>, filterStatus: string, todayOnly: bool, isToday: string -> bool)
    : (shown: seq<Appointment>)
    ensures forall a :: a in shown <==>
      a in appointments && StatusMatches(a, filterStatus) && (todayOnly ==> isToday(a.appointmentDate))
  {
    Filter(appointments, ShownBy(filterStatus, todayOnly, isToday))
  }

  /** With "all" and without the today switch, everything is shown, in
      order. */
  lemma AllShowsEverything(appointments: seq<Appointment>, isToday: string -> bool)
    ensures Filtered(appointments, "all", false, isToday) == appointments
  {
    forall i | 0 <= i < |appointments|
      ensures ShownBy("all", false, isToday)(appointments[i])
    {
      assert StatusMatches(appointments[i], "all");
    }
    FilterAll(appointments, ShownBy("all", false, isToday));
  }

  function OnDay(isToday: string -> bool): Appointment -> bool {
    (a: Appointment) => isToday(a.appointmentDate)
  }

  /** The today switch narrows the status-filtered list to today's
      appointments, keeping their order. */
  lemma {:induction false} TodayNarrows(appointments: seq<Appointment>, filterStatus: string, isToday: string -> bool)
    ensures Filtered(appointments, filterStatus, true, isToday) ==
      Filter(Filtered(appointments, filterStatus, false, isToday), OnDay(isToday))
  {
    if appointments != [] {
      TodayNarrows(appointments[1..], filterStatus, isToday);
    }
  }

  function HasStatus(st: Status): Appointment -> bool {
    (a: Appointment) => a.status == st
  }

  datatype Stats = Stats(total: nat, pending: nat, accepted: nat, rejected: nat)

  /** The four counters: the list's length and the number of pending,
      accepted and rejected appointments in it. The three never add up to
      more than the total, and fall short of it exactly by the cancelled
      and completed appointments. */
  function StatsOf(appointments: seq<Appointment>): (r: Stats)
    ensures r.total == |appointments|
    ensures r.pending + r.accepted + r.rejected <= r.total
    ensures r.pending == Count(appointments, HasStatus(Pending))
    ensures r.accepted == Count(appointments, HasStatus(Accepted))
    ensures r.rejected == Count(appointments, HasStatus(Rejected))
  {
    CountIsFilterLength(appointments, HasStatus(Pending));
    CountIsFilterLength(appointments, HasStatus(Accepted));
    CountIsFilterLength(appointments, HasStatus(Rejected));
    DisjointCountsBounded(appointments, HasStatus(Pending), HasStatus(Accepted), HasStatus(Rejected));
    Stats(|appointments|,
          |Filter(appointments, HasStatus(Pending))|,
          |Filter(appointments, HasStatus(Accepted))|,
          |Filter(appointments, HasStatus(Rejected))|)
  }

  /** `getStatusClass`: the style of a status badge; any status other than
      accepted and rejected looks pending. */
  function StatusClass(st: Status): (r: string)
    ensures r == "accepted" <==> st == Accepted
    ensures r == "rejected" <==> st == Rejected
    ensures r != "accepted" && r != "rejected" ==> r == "pending"
  {
    match st
    case Pending => "pending"
    case Accepted => "accepted"
    case Rejected => "rejected"
    case _ => "pending"
  }

  /** `s.charAt(0)`: the first character, or "" for "". */
  function CharAt0(s: string): (r: string)
    ensures |r| <= 1 && r <= s
    ensures s != "" ==> |r| == 1
  {
    if s == "" then "" else s[..1]
  }

  /** `getInitials`: the first letters of both names, upper-cased; an
      empty name contributes nothing. */
  function Initials(firstName: string, lastName: string): (r: string)
    ensures |r| == (if firstName == "" then 0 else 1) + (if lastName == "" then 0 else 1)
    ensures firstName != "" ==> r[0] == UpperChar(firstName[0])
    ensures lastName != "" ==> r[|r| - 1] == UpperChar(lastName[0])
  {
    ToUpper(CharAt0(firstName) + CharAt0(lastName))
  }

  // ---------------------------------------------------------------------
  // Status updates and deletion
  // ---------------------------------------------------------------------

  /** `prev.map(a => a._id === id ? {...a, status} : a)`. */
  function Updated(appointments: seq<Appointment>, id: Id, st: Status): (r: seq<Appointment>)
    ensures |r| == |appointments|
    ensures forall i :: 0 <= i < |r| ==> r[i].id == appointments[i].id
    ensures forall i :: 0 <= i < |r| && appointments[i].id == id ==> r[i] == appointments[i].(status := st)
    ensures forall i :: 0 <= i < |r| && appointments[i].id != id ==> r[i] == appointments[i]
  {
    seq(|appointments|, i requires 0 <= i < |appointments| =>
      if appointments[i].id == id then appointments[i].(status := st) else appointments[i])
  }

  /** Setting the same status twice is setting it once. */
  lemma UpdateIdempotent(appointments: seq<Appointment>, id: Id, st: Status)
    ensures Updated(Updated(appointments, id, st), id, st) == Updated(appointments, id, st)
  {
  }

  /** After an update, the appointment is listed under its new status and
      no longer under a different one. */
  lemma UpdatedListedUnderNewStatus(appointments: seq<Appointment>, id: Id, st: Status, other: Status,
                                    isToday: string -> bool)
    requires other != st
    ensures forall i :: 0 <= i < |appointments| && appointments[i].id == id ==>
      Updated(appointments, id, st)[i] in Filtered(Updated(appointments, id, st), StatusName(st), false, isToday)
    ensures forall a :: a in Filtered(Updated(appointments, id, st), StatusName(other), false, isToday) ==> a.id != id
  {
    var r := Updated(appointments, id, st);
    forall a | a in Filtered(r, StatusName(other), false, isToday)
      ensures a.id != id
    {
      var i :| 0 <= i < |r| && r[i] == a;
      StatusRoundTrip(other, StatusName(other));
      StatusRoundTrip(st, StatusName(st));
    }
  }

  function NotId(id: Id): Appointment -> bool {
    (a: Appointment) => a.id != id
  }

  /** `prev.filter(a => a._id !== id)`. */
  function Removed(appointments: seq<Appointment>, id: Id): (r: seq<Appointment>)
    ensures forall a :: a in r <==> a in appointments && a.id != id
  {
    Filter(appointments, NotId(id))
  }

  /** Deleting removes exactly the appointments with the id: the list
      shrinks by their number, and deleting again changes nothing. */
  lemma {:induction false} RemovedCount(appointments: seq<Appointment>, id: Id)
    ensures |Removed(appointments, id)| == |appointments| - Count(appointments, HasId(id))
    ensures Removed(Removed(appointments, id), id) == Removed(appointments, id)
  {
    if appointments != [] {
      RemovedCount(appointments[1..], id);
    }
  }

  function HasId(id: Id): Appointment -> bool {
    (a: Appointment) => a.id == id
  }

  // ---------------------------------------------------------------------
  // CSV export
  // ---------------------------------------------------------------------

  const CsvHeaders: seq<string> := ["Appointment Number", "Patient Name", "Email", "Phone", "Doctor",
                                    "Department", "Appointment Date", "Status", "Has Visited"]

  /** One exported row, under the headers' order. */
  function CsvRow(a: Appointment, formatDate: string -> string): (row: seq<string>)
    ensures |row| == |CsvHeaders|
    ensures row[0] == (if a.appointmentNumber == "" then "N/A" else a.appointmentNumber)
    ensures row[6] == formatDate(a.appointmentDate) && row[7] == StatusName(a.status)
  {
    [if a.appointmentNumber == "" then "N/A" else a.appointmentNumber,
     a.firstName + " " + a.lastName,
     a.email,
     a.phone,
     "Dr. " + a.doctor.firstName + " " + a.doctor.lastName,
     a.department,
     formatDate(a.appointmentDate),
     StatusName(a.status),
     if a.hasVisited then "Yes" else "No"]
  }

  /** The headers followed by one row per shown appointment. */
  function CsvRows(appointments: seq<Appointment>, formatDate: string -> string): (rows: seq<seq<string>>)
    ensures |rows| == |appointments| + 1 && rows[0] == CsvHeaders
    ensures forall i :: 0 <= i < |appointments| ==> rows[i + 1] == CsvRow(appointments[i], formatDate)
  {
    [CsvHeaders] + seq(|appointments|, i requires 0 <= i < |appointments| => CsvRow(appointments[i], formatDate))
  }

  /** `row.join(',')` exactly as the page writes it: no cell is quoted. */
  function LineAsWritten(row: seq<string>): string {
    Join(row, ",")
  }

  /** The file as the page writes it. */
  function CsvContentAsWritten(appointments: seq<Appointment>, formatDate: string -> string): (r: string)
    ensures LineAsWritten(CsvHeaders) <= r
  {
    var rows := CsvRows(appointments, formatDate);
    Join(seq(|rows|, i requires 0 <= i < |rows| => LineAsWritten(rows[i])), "\n")
  }

  /** A cell between double quotes, its own quotes doubled, in the manner
      of RFC 4180, section 2. */
  function Quote(cell: string): string {
    "\"" + Escape(cell) + "\""
  }

  function Escape(cell: string): (r: string)
    ensures '\n' !in cell ==> '\n' !in r
  {
    if cell == [] then [] else (if cell[0] == '"' then "\"\"" else [cell[0]]) + Escape(cell[1..])
  }

  /** A line whose every cell is quoted. */
  function Line(row: seq<string>): string {
    Join(seq(|row|, i requires 0 <= i < |row| => Quote(row[i])), ",")
  }

  /** The exported file: one quoted line per row, joined by newlines. */
  function CsvContent(appointments: seq<Appointment>, formatDate: string -> string): (r: string)
    ensures Line(CsvHeaders) <= r
  {
    var rows := CsvRows(appointments, formatDate);
    Join(seq(|rows|, i requires 0 <= i < |rows| => Line(rows[i])), "\n")
  }

  /** How a CSV reader sees a line: the commas that separate fields (those
      outside quotes), and whether the line ends inside quotes. */
  datatype Reading = Reading(separators: nat, quoted: bool)

  function Read(s: string, quoted: bool): Reading {
    if s == [] then Reading(0, quoted)
    else
      var rest := Read(s[1..], if s[0] == '"' then !quoted else quoted);
      if s[0] == ',' && !quoted then rest.(separators := rest.separators + 1) else rest
  }

  lemma {:induction false} ReadAppend(a: string, b: string, quoted: bool)
    ensures Read(a + b, quoted) ==
      Reading(Read(a, quoted).separators + Read(b, Read(a, quoted).quoted).separators,
              Read(b, Read(a, quoted).quoted).quoted)
  {
    if a != [] {
      assert (a + b)[0] == a[0] && (a + b)[1..] == a[1..] + b;
      ReadAppend(a[1..], b, if a[0] == '"' then !quoted else quoted);
    } else {
      assert a + b == b;
    }
  }

  /** Inside quotes, an escaped cell shows no separator and leaves the
      reader inside. */
  lemma {:induction false} ReadEscaped(cell: string)
    ensures Read(Escape(cell), true) == Reading(0, true)
  {
    if cell != [] {
      var head := if cell[0] == '"' then "\"\"" else [cell[0]];
      ReadEscaped(cell[1..]);
      ReadAppend(head, Escape(cell[1..]), true);
    }
  }

  /** A quoted cell shows no separator, whatever it contains. */
  lemma ReadQuoted(cell: string)
    ensures Read(Quote(cell), false) == Reading(0, false)
  {
    ReadEscaped(cell);
    ReadAppend("\"", Escape(cell), false);
    ReadAppend("\"" + Escape(cell), "\"", false);
  }

  /** Quoted cells joined by commas show exactly the joining commas. */
  lemma {:induction false} ReadQuotedJoin(cells: seq<string>)
    requires |cells| >= 1
    requires forall i :: 0 <= i < |cells| ==> Read(cells[i], false) == Reading(0, false)
    ensures Read(Join(cells, ","), false) == Reading(|cells| - 1, false)
  {
    if |cells| > 1 {
      ReadQuotedJoin(cells[1..]);
      ReadAppend(cells[0], ",", false);
      ReadAppend(cells[0] + ",", Join(cells[1..], ","), false);
    }
  }

  /** Every exported line reads back as nine fields, whatever the cells
      contain. */
  lemma LineHasNineFields(row: seq<string>)
    requires |row| == |CsvHeaders|
    ensures Read(Line(row), false) == Reading(|CsvHeaders| - 1, false)
  {
    var cells := seq(|row|, i requires 0 <= i < |row| => Quote(row[i]));
    forall i | 0 <= i < |cells|
      ensures Read(cells[i], false) == Reading(0, false)
    {
      ReadQuoted(row[i]);
    }
    ReadQuotedJoin(cells);
  }

  /** Without quoting, a comma in one cell is one separator more: the
      line reads as ten fields, the later cells shifted right. */
  lemma {:induction false} JoinCountOneCell(parts: seq<string>, c: char, k: nat)
    requires k < |parts|
    requires forall i :: 0 <= i < |parts| && i != k ==> c !in parts[i]
    ensures CountChar(Join(parts, [c]), c) == |parts| - 1 + CountChar(parts[k], c)
  {
    if |parts| > 1 {
      if k == 0 {
        JoinCountsSeparators(parts[1..], c);
      } else {
        CountCharAbsent(parts[0], c);
        JoinCountOneCell(parts[1..], c, k - 1);
      }
      CountCharAppend(parts[0], [c], c);
      CountCharAppend(parts[0] + [c], Join(parts[1..], [c]), c);
    }
  }

  /** The date "Jan 5, 2025" (what `toLocaleDateString` gives for the
      options `{year: 'numeric', month: 'short', day: 'numeric'}` in an
      English locale) puts a ninth comma in the unquoted line. */
  lemma DateCommaShiftsColumns(a: Appointment, formatDate: string -> string)
    requires formatDate(a.appointmentDate) == "Jan 5, 2025"
    requires forall i :: 0 <= i < |CsvHeaders| && i != 6 ==> ',' !in CsvRow(a, formatDate)[i]
    ensures CountChar(LineAsWritten(CsvRow(a, formatDate)), ',') == |CsvHeaders|
  {
    var row := CsvRow(a, formatDate);
    DateHasOneComma();
    JoinCountOneCell(row, ',', 6);
  }

  /** The short English date holds one comma. */
  lemma DateHasOneComma()
    ensures CountChar("Jan 5, 2025", ',') == 1
  {
    CountCharAbsent("Jan 5", ',');
    CountCharAbsent(" 2025", ',');
    CountCharAppend("Jan 5", ",", ',');
    CountCharAppend("Jan 5,", " 2025", ',');
    assert "Jan 5, 2025" == "Jan 5," + " 2025";
  }

  /** The department "EAR, NOSE & THROAT (ENT)", one of the form's own
      choices, puts a ninth comma in the unquoted line whatever the locale. */
  lemma DepartmentCommaShiftsColumns(a: Appointment, formatDate: string -> string)
    requires a.department == "EAR, NOSE & THROAT (ENT)"
    requires forall i :: 0 <= i < |CsvHeaders| && i != 5 ==> ',' !in CsvRow(a, formatDate)[i]
    ensures CountChar(LineAsWritten(CsvRow(a, formatDate)), ',') == |CsvHeaders|
  {
    var row := CsvRow(a, formatDate);
    DepartmentHasOneComma();
    JoinCountOneCell(row, ',', 5);
  }

  /** The ear, nose and throat department's name holds one comma. */
  lemma DepartmentHasOneComma()
    ensures CountChar("EAR, NOSE & THROAT (ENT)", ',') == 1
  {
    CountCharOnce("EAR, NOSE & THROAT (ENT)", ',', 3);
  }

  /** A line holds a line break only where one of its cells does. */
  lemma LineAvoidsNewline(row: seq<string>)
    requires forall j :: 0 <= j < |row| ==> '\n' !in row[j]
    ensures '\n' !in Line(row)
  {
    var cells := seq(|row|, j requires 0 <= j < |row| => Quote(row[j]));
    assert forall j :: 0 <= j < |cells| ==> '\n' !in cells[j];
    JoinAvoids(cells, ",", '\n');
  }

  /** The exported file has one line per shown appointment after the
      headers, as long as no cell holds a line break; this holds of the
      file as written and of the quoted one. */
  lemma CsvLineCount(appointments: seq<Appointment>, formatDate: string -> string)
    requires forall i, j :: 0 <= i < |appointments| && 0 <= j < |CsvHeaders| ==>
      '\n' !in CsvRow(appointments[i], formatDate)[j]
    ensures CountChar(CsvContent(appointments, formatDate), '\n') == |appointments|
    ensures CountChar(CsvContentAsWritten(appointments, formatDate), '\n') == |appointments|
  {
    var rows := CsvRows(appointments, formatDate);
    var lines := seq(|rows|, i requires 0 <= i < |rows| => Line(rows[i]));
    var plain := seq(|rows|, i requires 0 <= i < |rows| => LineAsWritten(rows[i]));
    forall i | 0 <= i < |rows|
      ensures '\n' !in lines[i] && '\n' !in plain[i]
    {
      RowAvoidsNewline(appointments, formatDate, i);
    }
    JoinCountsSeparators(lines, '\n');
    JoinCountsSeparators(plain, '\n');
  }

  /** The `n`-th line of the file, quoted or not, holds no line break. */
  lemma RowAvoidsNewline(appointments: seq<Appointment>, formatDate: string -> string, n: nat)
    requires forall i, j :: 0 <= i < |appointments| && 0 <= j < |CsvHeaders| ==>
      '\n' !in CsvRow(appointments[i], formatDate)[j]
    requires n <= |appointments|
    ensures '\n' !in Line(CsvRows(appointments, formatDate)[n])
    ensures '\n' !in LineAsWritten(CsvRows(appointments, formatDate)[n])
  {
    var row := CsvRows(appointments, formatDate)[n];
    if n == 0 {
      HeadersAvoidNewline();
    } else {
      assert row == CsvRow(appointments[n - 1], formatDate);
    }
    LineAvoidsNewline(row);
    JoinAvoids(row, ",", '\n');
  }

  lemma HeadersAvoidNewline()
    ensures forall j :: 0 <= j < |CsvHeaders| ==> '\n' !in CsvHeaders[j]
  {
  }

  // ---------------------------------------------------------------------
  // The page
  // ---------------------------------------------------------------------

  class DashboardPage {
    var appointments: seq<Appointment>
    var filterStatus: string
    var showTodayOnly: bool

    constructor ()
      ensures appointments == [] && filterStatus == "all" && !showTodayOnly
    {
      appointments := [];
      filterStatus := "all";
      showTodayOnly := false;
    }

    /** The fetch effect: a list that arrives replaces the current one; a
        failed fetch keeps it. */
    method Loaded(fetched: Option<seq<Appointment>>)
      modifies this`appointments
      ensures fetched.Some? ==> appointments == fetched.value
      ensures fetched.None? ==> appointments == old(appointments)
    {
      if fetched.Some? {
        appointments := fetched.value;
      }
    }

    /** `handleUpdateStatus`: once the server accepts, the appointment
        takes the status in place. */
    method HandleUpdateStatus(id: Id, st: Status, accepted: bool)
      modifies this`appointments
      ensures appointments == (if accepted then Updated(old(appointments), id, st) else old(appointments))
    {
      if accepted {
        appointments := Updated(appointments, id, st);
      }
    }

    /** `handleDeleteAppointment`: after the confirmation and the server's
        acceptance, the appointment leaves the list. */
    method HandleDeleteAppointment(id: Id, confirmed: bool, accepted: bool)
      modifies this`appointments
      ensures appointments == (if confirmed && accepted then Removed(old(appointments), id) else old(appointments))
    {
      if confirmed && accepted {
        appointments := Removed(appointments, id);
      }
    }

    /** `handleExportCSV`: the file for what the table shows, its cells
        unquoted as the page writes them. */
    method HandleExportCsv(isToday: string -> bool, formatDate: string -> string) returns (content: string)
      ensures content == CsvContentAsWritten(Filtered(appointments, filterStatus, showTodayOnly, isToday), formatDate)
    {
      content := CsvContentAsWritten(Filtered(appointments, filterStatus, showTodayOnly, isToday), formatDate);
    }
  }
}
