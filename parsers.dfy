/**
 * The effect-free half of session.go: turning the tables of a scraped page
 * into records. Each parser takes the converter's output (tables of rows of
 * cells) rather than the HTML text.
 */
module Parsers {
  import opened Wrappers
  import opened GoStrings
  import opened Collecting
  import opened Html
  import opened Records

  function Max0(n: int): nat { if n < 0 then 0 else n }

  // ---------------------------------------------------------------------------
  // Class events of a student (getClassEventsOfStudent)
  // ---------------------------------------------------------------------------

  /** Every row after the header has the three cells the parser reads. */
  predicate EventRowsOk(records: Table) {
    forall i :: 1 <= i < |records| ==> |records[i]| >= 3
  }

  /**
   * One event row: the link cell (0) gives the instance id, category id and
   * unescaped class name, the status cell (2) gives status and dates; a cell
   * that does not match leaves its fields empty.
   */
  function EventOf(row: Row, pats: Patterns, unescape: string -> string): (e: ClassEvent)
    requires |row| >= 3
    ensures !(pats.eventLink(row[0]).Some? && |pats.eventLink(row[0]).value| == 4) ==>
      e.classInstanceId == e.categoryId == e.className == ""
    ensures !(pats.eventStatus(row[2]).Some? && |pats.eventStatus(row[2]).value| == 4) ==>
      e.status == e.beginTime == e.endTime == ""
  {
    var link := pats.eventLink(row[0]);
    var stat := pats.eventStatus(row[2]);
    var linked := link.Some? && |link.value| == 4;
    var dated := stat.Some? && |stat.value| == 4;
    ClassEvent(
      classInstanceId := if linked then link.value[1] else "",
      categoryId := if linked then link.value[2] else "",
      className := if linked then unescape(link.value[3]) else "",
      status := if dated then stat.value[1] else "",
      beginTime := if dated then stat.value[2] else "",
      endTime := if dated then stat.value[3] else "")
  }

  /** The events of a run of data rows, one per row. */
  function EventsOfRows(rows: seq<Row>, pats: Patterns, unescape: string -> string): (r: seq<ClassEvent>)
    requires forall i :: 0 <= i < |rows| ==> |rows[i]| >= 3
    ensures |r| == |rows|
    ensures forall k :: 0 <= k < |rows| ==> r[k] == EventOf(rows[k], pats, unescape)
    decreases |rows|
  {
    if rows == [] then [] else [EventOf(rows[0], pats, unescape)] + EventsOfRows(rows[1..], pats, unescape)
  }

  /**
   * The events of a class-history table: exactly one per row after the
   * header, in row order.
   */
  function ClassEvents(records: Table, pats: Patterns, unescape: string -> string): (r: seq<ClassEvent>)
    requires EventRowsOk(records)
    ensures |r| == Max0(|records| - 1)
    ensures forall k :: 0 <= k < |r| ==> r[k] == EventOf(records[k + 1], pats, unescape)
  {
    if |records| <= 1 then [] else EventsOfRows(records[1..], pats, unescape)
  }

  /** getClassEventsOfStudent: the loop of session.go; it never reports an error. */
  method ParseClassEvents(records: Table, pats: Patterns, unescape: string -> string)
    returns (events: seq<ClassEvent>, err: Option<Error>)
    requires EventRowsOk(records)
    ensures |events| == Max0(|records| - 1)
    ensures forall k :: 0 <= k < |events| ==> events[k] == EventOf(records[k + 1], pats, unescape)
    ensures err == None
  {
    events := [];
    err := None;
    var nRow := |records|;
    var i := 1;
    while i <= nRow - 1
      invariant 1 <= i <= Max0(nRow - 1) + 1
      invariant |events| == i - 1
      invariant forall k :: 0 <= k < i - 1 ==> events[k] == EventOf(records[k + 1], pats, unescape)
    {
      var row := records[i];
      var e := ClassEvent("", "", "", "", "", "");
      var matched := pats.eventLink(row[0]);
      if matched.Some? && |matched.value| == 4 {
        e := e.(classInstanceId := matched.value[1], categoryId := matched.value[2],
                className := unescape(matched.value[3]));
      }
      matched := pats.eventStatus(row[2]);
      if matched.Some? && |matched.value| == 4 {
        e := e.(status := matched.value[1], beginTime := matched.value[2], endTime := matched.value[3]);
      }
      events := events + [e];
      i := i + 1;
    }
  }

  // ---------------------------------------------------------------------------
  // A student's detail page (getStudent)
  // ---------------------------------------------------------------------------

  /** The cell runs a phone-number cell has: a `/` reached before any newline. */
  ghost predicate SlashBeforeNewline(cell: string) {
    exists k :: 0 <= k < |cell| && cell[k] == '/' && '\n' !in cell[..k]
  }

  /**
   * The phone number: the text of the cell before its first `/`, or empty
   * when the anchored match fails (no `/`, or a newline before it).
   */
  function PhoneNumberOf(cell: string): (r: string)
    ensures '/' !in r && '\n' !in r
    ensures SlashBeforeNewline(cell) ==> |r| < |cell| && cell[..|r|] == r && cell[|r|] == '/'
    ensures !SlashBeforeNewline(cell) ==> r == ""
  {
    match TextBeforeSlash(cell)
    case None => ""
    case Some(t) =>
      assert cell[|t|] == '/' && cell[..|t|] == t;
      t
  }

  /** The cutset the name cell is trimmed with (the three runes of a bold tag). */
  const BoldCutset: string := "<b>"

  /** The tables and cells getStudent indexes into without checking. */
  predicate StudentLayout(tables: Tables) {
    && |tables| >= 3
    && |tables[0]| >= 8
    && |tables[0][1]| >= 4
    && |tables[0][6]| >= 2
    && |tables[0][7]| >= 2
    && |tables[1]| >= 2
    && |tables[1][1]| >= 2
    && |tables[2]| >= 2
    && |tables[2][1]| >= 2
    && (|tables| >= 4 ==> EventRowsOk(tables[3]))
  }

  /**
   * getStudent: the student of a detail page. The field rules are
   * positional; the name has every leading `<`, `b` and `>` removed (so a
   * name that itself starts with `b` loses that letter too), the phone number
   * is the text before the first `/`, and class events are read only when a
   * fourth table exists.
   */
  function ParseStudent(tables: Tables, libs: Libs): (s: Student)
    requires StudentLayout(tables)
    ensures |tables| < 4 ==> s.classEvents == []
    ensures |tables| >= 4 ==>
      && |s.classEvents| == Max0(|tables[3]| - 1)
      && forall k :: 0 <= k < |s.classEvents| ==> s.classEvents[k] == EventOf(tables[3][k + 1], libs.pats, libs.unescape)
  {
    Student(
      name := libs.unescape(TrimLeft(tables[0][1][1], BoldCutset)),
      sid := tables[0][1][3],
      status := tables[0][6][1],
      comments := libs.unescape(tables[0][7][1]),
      phoneNumber := PhoneNumberOf(tables[1][1][1]),
      receiptNumber := tables[2][1][1],
      classEvents := if |tables| >= 4 then ClassEvents(tables[3], libs.pats, libs.unescape) else [])
  }

  /**
   * The name rule trims a cutset, not the prefix `<b>`: a bold name whose
   * first letter is `b` loses it.
   */
  lemma NameTrimIsCutset(name: string)
    requires name != [] && name[0] == 'b'
    ensures TrimLeft(BoldCutset + name, BoldCutset) != name
  {
  }

  // ---------------------------------------------------------------------------
  // A category's detail page (the shape check of GetCategory)
  // ---------------------------------------------------------------------------

  /** Exactly two tables, six rows in the first, four cells in its row 2. */
  predicate CategoryLayout(tables: Tables) {
    |tables| == 2 && |tables[0]| == 6 && |tables[0][2]| == 4
  }

  /**
   * The category of a detail page: accepted exactly when the layout holds,
   * with the requested id and the name in table 0, row 2, cell 1.
   */
  function CategoryFromPage(id: string, tables: Tables): (r: Result<Category, Error>)
    ensures r.Ok? <==> CategoryLayout(tables)
    ensures r.Ok? ==> r.value.id == id && r.value.name == tables[0][2][1]
    ensures r.Err? ==> r.error == CategoryShape
  {
    if !CategoryLayout(tables) then Err(CategoryShape) else Ok(Category(id, tables[0][2][1]))
  }

  // ---------------------------------------------------------------------------
  // The class listing (getClasses)
  // ---------------------------------------------------------------------------

  /** A row together with where it was found. */
  datatype Located = Located(table: nat, row: nat, cells: Row)

  /** The rows of table i after its header, in order. */
  function TableRows(i: nat, t: Table): (r: seq<Located>)
    ensures |r| == Max0(|t| - 1)
    ensures forall k :: 0 <= k < |r| ==> r[k] == Located(i, k + 1, t[k + 1])
  {
    if |t| <= 1 then [] else seq(|t| - 1, k requires 0 <= k < |t| - 1 => Located(i, k + 1, t[k + 1]))
  }

  /** How many rows tables[i..] have after their headers. */
  function DataRowCount(tables: Tables, i: nat): nat
    requires i <= |tables|
    decreases |tables| - i
  {
    if i == |tables| then 0 else Max0(|tables[i]| - 1) + DataRowCount(tables, i + 1)
  }

  /** The rows of tables[i..] after their headers, table by table. */
  function DataRowsFrom(tables: Tables, i: nat): seq<Located>
    requires i <= |tables|
    decreases |tables| - i
  {
    if i == |tables| then [] else TableRows(i, tables[i]) + DataRowsFrom(tables, i + 1)
  }

  /**
   * DataRowsFrom lists exactly the non-header rows: each is where it says it
   * is, and there are as many as the tables have non-header rows.
   */
  lemma {:induction false} DataRowsExact(tables: Tables, i: nat)
    requires i <= |tables|
    ensures var r := DataRowsFrom(tables, i);
      && |r| == DataRowCount(tables, i)
      && (forall k :: 0 <= k < |r| ==>
            i <= r[k].table < |tables| && 1 <= r[k].row < |tables[r[k].table]| &&
            r[k].cells == tables[r[k].table][r[k].row])
    decreases |tables| - i
  {
    if i < |tables| {
      DataRowsExact(tables, i + 1);
      var here, rest := TableRows(i, tables[i]), DataRowsFrom(tables, i + 1);
      var r := here + rest;
      assert forall k :: 0 <= k < |here| ==> r[k] == here[k];
      assert forall k :: |here| <= k < |r| ==> r[k] == rest[k - |here|];
    }
  }

  /** DataRowsFrom lists the rows in strictly increasing (table, row) order. */
  lemma {:induction false} DataRowsOrdered(tables: Tables, i: nat)
    requires i <= |tables|
    ensures var r := DataRowsFrom(tables, i);
      forall k1, k2 :: 0 <= k1 < k2 < |r| ==>
        r[k1].table < r[k2].table || (r[k1].table == r[k2].table && r[k1].row < r[k2].row)
    decreases |tables| - i
  {
    if i < |tables| {
      DataRowsOrdered(tables, i + 1);
      DataRowsExact(tables, i + 1);
      var here, rest := TableRows(i, tables[i]), DataRowsFrom(tables, i + 1);
      var r := here + rest;
      assert forall k :: 0 <= k < |here| ==> r[k] == here[k];
      assert forall k :: |here| <= k < |r| ==> r[k] == rest[k - |here|];
    }
  }

  function DataRows(tables: Tables): seq<Located> {
    DataRowsFrom(tables, 0)
  }

  /** The text appended to a class name that has a date in it. */
  const MidnightSuffix: string := " 00:00:00.0"

  predicate ClassLinkMatched(cell: string, pats: Patterns) {
    pats.classLink(cell).Some? && |pats.classLink(cell).value| == 4
  }

  /** getClasses reads cell 1 of every row it reaches, and cell 3 of a row whose link matched. */
  predicate ClassRowSafe(loc: Located, pats: Patterns) {
    |loc.cells| >= 2 && (ClassLinkMatched(loc.cells[0], pats) ==> |loc.cells| >= 4)
  }

  /** The class of one row, or the error naming its table and row. */
  function ClassOfRow(loc: Located, pats: Patterns): (r: Result<seq<Class>, Error>)
    requires ClassRowSafe(loc, pats)
    ensures r.Ok? <==> ClassLinkMatched(loc.cells[0], pats)
    ensures r.Err? ==> r.error == ClassParse(loc.table, loc.row)
    ensures r.Ok? ==> |r.value| == 1 && r.value[0].classId == loc.cells[1] && r.value[0].status == loc.cells[3]
  {
    var m := pats.classLink(loc.cells[0]);
    if !(m.Some? && |m.value| == 4) then Err(ClassParse(loc.table, loc.row))
    else Ok([Class(
      classId := loc.cells[1],
      className := ReplaceAll(m.value[3], MidnightSuffix, ""),
      classInstanceId := m.value[1],
      categoryId := m.value[2],
      status := loc.cells[3])])
  }

  /** Where getClasses would panic on a row, the step's value is never used (see ClassesSafe). */
  function ClassRowStep(pats: Patterns): Located -> Result<seq<Class>, Error> {
    loc => if ClassRowSafe(loc, pats) then ClassOfRow(loc, pats) else Err(ClassParse(loc.table, loc.row))
  }

  function ClassRowSafety(pats: Patterns): Located -> bool {
    loc => ClassRowSafe(loc, pats)
  }

  /** getClasses never indexes out of range on these tables. */
  ghost predicate ClassesSafe(tables: Tables, pats: Patterns) {
    Collectable(DataRows(tables), ClassRowSafety(pats), ClassRowStep(pats))
  }

  /** The classes of a listing page and the error that stopped the scan, if any. */
  function Classes(tables: Tables, pats: Patterns): Partial<Class, Error>
    requires ClassesSafe(tables, pats)
  {
    Collect(DataRows(tables), ClassRowStep(pats))
  }

  /**
   * getClasses emits one class per non-header row in table-then-row order,
   * built from that row, until the first row whose link cell does not match;
   * it then stops with an error naming that row's table and row index.
   */
  lemma ClassesOnePerRow(tables: Tables, pats: Patterns)
    requires ClassesSafe(tables, pats)
    ensures var rows, r := DataRows(tables), Classes(tables, pats);
      && |r.items| <= |rows|
      && (r.err.None? <==> |r.items| == |rows|)
      && (forall k :: 0 <= k < |r.items| ==>
            && ClassRowSafe(rows[k], pats) && ClassLinkMatched(rows[k].cells[0], pats)
            && var m := pats.classLink(rows[k].cells[0]);
               r.items[k] == Class(rows[k].cells[1], ReplaceAll(m.value[3], MidnightSuffix, ""),
                                   m.value[1], m.value[2], rows[k].cells[3]))
      && (r.err.Some? ==>
            var bad := rows[|r.items|];
            && |bad.cells| >= 2 && !ClassLinkMatched(bad.cells[0], pats)
            && r.err.value == ClassParse(bad.table, bad.row))
  {
    var rows, step := DataRows(tables), ClassRowStep(pats);
    CollectOneEach(rows, ClassRowSafety(pats), step);
  }

  /** A class name followed by the midnight time loses exactly that suffix. */
  lemma ClassNameDropsMidnight(name: string)
    requires forall i :: 0 <= i < |name| ==> !OccursAt(name + MidnightSuffix, MidnightSuffix, i)
    ensures ReplaceAll(name + MidnightSuffix, MidnightSuffix, "") == name
  {
    ReplaceAfterClean(name, MidnightSuffix, MidnightSuffix, "");
    assert MidnightSuffix[|MidnightSuffix|..] == "";
    assert ReplaceAll(MidnightSuffix, MidnightSuffix, "") == "";
  }

  /** The body of getClasses's inner loop, for row j of table i. */
  method ParseClassRow(i: nat, j: nat, row: Row, pats: Patterns) returns (c: Class, err: Option<Error>)
    requires ClassRowSafe(Located(i, j, row), pats)
    ensures err.Some? ==> ClassRowStep(pats)(Located(i, j, row)) == Err(err.value)
    ensures err.None? ==> ClassRowStep(pats)(Located(i, j, row)) == Ok([c])
  {
    c := Class("", "", "", "", "");
    c := c.(classId := row[1]);
    var matched := pats.classLink(row[0]);
    if !(matched.Some? && |matched.value| == 4) {
      err := Some(ClassParse(i, j));
      return;
    }
    err := None;
    c := c.(className := ReplaceAll(matched.value[3], MidnightSuffix, ""));
    c := c.(classInstanceId := matched.value[1], categoryId := matched.value[2]);
    c := c.(status := row[3]);
  }

  /** getClasses: the nested loop of session.go. */
  method ParseClasses(tables: Tables, pats: Patterns) returns (classes: seq<Class>, err: Option<Error>)
    requires ClassesSafe(tables, pats)
    ensures Partial(classes, err) == Classes(tables, pats)
  {
    ghost var safe, step := ClassRowSafety(pats), ClassRowStep(pats);
    ghost var total := Classes(tables, pats);
    classes, err := [], None;
    var i := 0;
    while i < |tables|
      invariant 0 <= i <= |tables|
      invariant err == None
      invariant Collectable(DataRowsFrom(tables, i), safe, step)
      invariant total == Prepend(classes, Collect(DataRowsFrom(tables, i), step))
    {
      ClassesSplitTable(tables, i, pats);
      ghost var before := classes;
      classes, err := ParseTableClasses(i, tables[i], pats, classes);
      ClassesAfterTable(tables, i, pats, before, classes, err);
      if err.Some? {
        return;
      }
      i := i + 1;
    }
    assert classes + [] == classes;
  }

  /** The rows of table i come first among those of tables[i..], and are safe to scan. */
  lemma ClassesSplitTable(tables: Tables, i: nat, pats: Patterns)
    requires i < |tables|
    requires Collectable(DataRowsFrom(tables, i), ClassRowSafety(pats), ClassRowStep(pats))
    ensures DataRowsFrom(tables, i) == TableRows(i, tables[i]) + DataRowsFrom(tables, i + 1)
    ensures Collectable(TableRows(i, tables[i]), ClassRowSafety(pats), ClassRowStep(pats))
  {
    CollectableAppend(TableRows(i, tables[i]), DataRowsFrom(tables, i + 1), ClassRowSafety(pats), ClassRowStep(pats));
  }

  /** After table i has been scanned, the outer loop either stops with its error or goes on with tables[i + 1..]. */
  lemma ClassesAfterTable(tables: Tables, i: nat, pats: Patterns, before: seq<Class>, classes: seq<Class>, err: Option<Error>)
    requires i < |tables|
    requires Collectable(DataRowsFrom(tables, i), ClassRowSafety(pats), ClassRowStep(pats))
    requires Partial(classes, err) == Prepend(before, Collect(TableRows(i, tables[i]), ClassRowStep(pats)))
    ensures err.Some? ==> Prepend(before, Collect(DataRowsFrom(tables, i), ClassRowStep(pats))) == Partial(classes, err)
    ensures err.None? ==>
      && Collectable(DataRowsFrom(tables, i + 1), ClassRowSafety(pats), ClassRowStep(pats))
      && Prepend(before, Collect(DataRowsFrom(tables, i), ClassRowStep(pats)))
         == Prepend(classes, Collect(DataRowsFrom(tables, i + 1), ClassRowStep(pats)))
  {
    var here, rest := TableRows(i, tables[i]), DataRowsFrom(tables, i + 1);
    assert DataRowsFrom(tables, i) == here + rest;
    CollectThen(here, rest, ClassRowSafety(pats), ClassRowStep(pats), before, classes, err);
  }

  /** The inner loop of getClasses: the rows of table i after its header, appended to acc. */
  method ParseTableClasses(i: nat, table: Table, pats: Patterns, acc: seq<Class>)
    returns (classes: seq<Class>, err: Option<Error>)
    requires Collectable(TableRows(i, table), ClassRowSafety(pats), ClassRowStep(pats))
    ensures Partial(classes, err) == Prepend(acc, Collect(TableRows(i, table), ClassRowStep(pats)))
  {
    ghost var safe, step := ClassRowSafety(pats), ClassRowStep(pats);
    ghost var here := TableRows(i, table);
    classes, err := acc, None;
    var j := 1;  // row 0 is the header
    while j < |table|
      invariant 1 <= j && j - 1 <= |here|
      invariant err == None
      invariant Collectable(here[j - 1..], safe, step)
      invariant Prepend(acc, Collect(here, step)) == Prepend(classes, Collect(here[j - 1..], step))
    {
      var row := table[j];
      assert here[j - 1..][0] == Located(i, j, row);
      assert here[j - 1..][1..] == here[j..];
      CollectHead(here[j - 1..], safe, step, classes);
      var c;
      c, err := ParseClassRow(i, j, row, pats);
      if err.Some? {
        return;
      }
      classes := classes + [c];
      j := j + 1;
    }
    assert here[j - 1..] == [];
    assert classes + [] == classes;
  }

  // ---------------------------------------------------------------------------
  // A class's student listing (getAllStudentPageLinks, the shape check of getStudentsPerPage)
  // ---------------------------------------------------------------------------

  /** Group 1 of every match, in match order. */
  function FirstGroups(ms: seq<seq<string>>): (r: seq<string>)
    requires forall k :: 0 <= k < |ms| ==> |ms[k]| >= 2
    ensures |r| == |ms|
    ensures forall k :: 0 <= k < |ms| ==> r[k] == ms[k][1]
    decreases |ms|
  {
    if ms == [] then [] else [ms[0][1]] + FirstGroups(ms[1..])
  }

  /** getAllStudentPageLinks: one href per page-index anchor, in document order. */
  method ParsePageLinks(data: string, pats: Patterns) returns (links: seq<string>)
    requires AllArity(pats.pageLink, 1)
    ensures |links| == |pats.pageLink(data)|
    ensures forall k :: 0 <= k < |links| ==> links[k] == pats.pageLink(data)[k][1]
  {
    var matched := pats.pageLink(data);
    links := [];
    for n := 0 to |matched|
      invariant |links| == n
      invariant forall k :: 0 <= k < n ==> links[k] == matched[k][1]
    {
      var m := matched[n];
      links := links + [m[1]];
    }
  }

  /** The hrefs getAllStudentPageLinks returns, for use in specifications. */
  function PageLinks(data: string, pats: Patterns): (r: seq<string>)
    requires AllArity(pats.pageLink, 1)
    ensures |r| == |pats.pageLink(data)|
    ensures forall k :: 0 <= k < |r| ==> r[k] == pats.pageLink(data)[k][1]
  {
    FirstGroups(pats.pageLink(data))
  }

  /**
   * The rows of a student list page: the page must be exactly one table;
   * its rows after the header are the students, in order.
   */
  function StudentListRows(tables: Tables): (r: Result<seq<Row>, Error>)
    ensures r.Ok? <==> |tables| == 1
    ensures r.Err? ==> r.error == StudentListShape
    ensures r.Ok? ==> |r.value| == Max0(|tables[0]| - 1)
    ensures r.Ok? ==> forall k :: 0 <= k < |r.value| ==> r.value[k] == tables[0][k + 1]
  {
    if |tables| != 1 then Err(StudentListShape)
    else if tables[0] == [] then Ok([])
    else Ok(tables[0][1..])
  }

  /** The student-list link cell matches; getStudentsPerPage uses group 1 without checking. */
  predicate StudentLinkMatched(row: Row, pats: Patterns) {
    |row| >= 1 && pats.studentLink(row[0]).Some? && |pats.studentLink(row[0]).value| >= 2
  }

  /** The student id in a student-list row. */
  function StudentIdOf(row: Row, pats: Patterns): string
    requires StudentLinkMatched(row, pats)
  {
    pats.studentLink(row[0]).value[1]
  }
}
