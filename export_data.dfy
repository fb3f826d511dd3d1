/** The export: the records inside a date range, turned into spreadsheet
    rows with a fixed key order, and the name of the file they are written to.
    The workbook itself and the file download are the spreadsheet library's
    business and stop at the `Export` value. */
module ExportData {
  import opened Types
  import opened Seqs
  import opened Dates

  /** The keys every row object carries, in the order they are written;
      when there are rows, the spreadsheet library takes its header from them. */
  const Columns: seq<string> :=
    ["Date", "Department", "Category", "Item", "Amount", "Supplier", "Payment Method", "Notes"]

  datatype ExportRow = ExportRow(
    date: string,
    department: string,
    category: string,
    item: string,
    amount: real,
    supplier: string,
    paymentMethod: string,
    notes: string)

  /** The key order of the row objects, the rows, and the file name. */
  datatype Export = Export(columns: seq<string>, rows: seq<ExportRow>, fileName: string)

  // ---------------------------------------------------------------------
  // Cell conversions.
  // ---------------------------------------------------------------------

  /** Position of the first `c` in `s`, `|s|` when there is none. */
  function IndexOf(s: string, c: char): (k: nat)
    ensures k <= |s|
    ensures k < |s| ==> s[k] == c
    ensures forall i :: 0 <= i < k ==> s[i] != c
  {
    if s == [] then 0
    else if s[0] == c then 0
    else 1 + IndexOf(s[1..], c)
  }

  /** `s.replace(from, to)` with a string pattern: the first occurrence of
      `from` becomes `to`, every later one stays. */
  function ReplaceFirst(s: string, from: char, to: char): (r: string)
    ensures |r| == |s|
  {
    if s == [] then []
    else if s[0] == from then [to] + s[1..]
    else [s[0]] + ReplaceFirst(s[1..], from, to)
  }

  /** Position by position: `to` at the first `from`, the input everywhere
      else. */
  lemma {:induction false} ReplaceFirstMeaning(s: string, from: char, to: char)
    ensures forall i :: 0 <= i < |s| ==>
      ReplaceFirst(s, from, to)[i] == if i == IndexOf(s, from) then to else s[i]
  {
    if s != [] && s[0] != from {
      ReplaceFirstMeaning(s[1..], from, to);
      forall i | 1 <= i < |s|
        ensures ReplaceFirst(s, from, to)[i] == ReplaceFirst(s[1..], from, to)[i - 1]
      {
      }
    }
  }

  /** `expense.department.replace('_', ' ')`: only the first underscore
      becomes a space, so `front_of_house` is written `front of_house`; the
      other names have no underscore and are written as they are. */
  function DepartmentCell(d: Department): (s: string)
    ensures d == FrontOfHouse ==> s == "front of_house"
    ensures d != FrontOfHouse ==> s == DepartmentName(d)
  {
    DepartmentNameReplaced(d);
    ReplaceFirst(DepartmentName(d), '_', ' ')
  }

  /** Replacing the first underscore of each department's name. */
  lemma DepartmentNameReplaced(d: Department)
    ensures ReplaceFirst(DepartmentName(d), '_', ' ')
         == if d == FrontOfHouse then "front of_house" else DepartmentName(d)
  {
    match d
    case FrontOfHouse => FrontOfHouseCell();
    case Bakery => ReplaceFirstAbsent("bakery", '_', ' ');
    case Bar => ReplaceFirstAbsent("bar", '_', ' ');
    case Kitchen => ReplaceFirstAbsent("kitchen", '_', ' ');
    case Maintenance => ReplaceFirstAbsent("maintenance", '_', ' ');
    case Administration => ReplaceFirstAbsent("administration", '_', ' ');
  }

  /** The replacement applied to `front_of_house`. */
  lemma FrontOfHouseCell()
    ensures ReplaceFirst(DepartmentName(FrontOfHouse), '_', ' ') == "front of_house"
  {
    FrontOfHouseParts();
    ReplaceFirstSplit("front", '_', ' ', "of_house");
  }

  /** The name splits at its only underscore, and the display name is the
      same two parts around a space. */
  lemma FrontOfHouseParts()
    ensures DepartmentName(FrontOfHouse) == "front" + ['_'] + "of_house"
    ensures "front" + [' '] + "of_house" == "front of_house"
    ensures forall i :: 0 <= i < |"front"| ==> "front"[i] != '_'
  {
  }

  /** The first `from` is the one replaced; what follows it is kept. */
  lemma {:induction false} ReplaceFirstSplit(a: string, from: char, to: char, b: string)
    requires forall i :: 0 <= i < |a| ==> a[i] != from
    ensures ReplaceFirst(a + [from] + b, from, to) == a + [to] + b
  {
    if a != [] {
      ReplaceFirstSplit(a[1..], from, to, b);
      assert (a + [from] + b)[1..] == a[1..] + [from] + b;
    }
  }

  /** A string without `from` is left as it is. */
  lemma ReplaceFirstAbsent(s: string, from: char, to: char)
    requires from !in s
    ensures ReplaceFirst(s, from, to) == s
  {
    ReplaceFirstMeaning(s, from, to);
    assert IndexOf(s, from) == |s|;
  }

  /** `expense.notes || ''`: the notes when present and non-empty, the
      empty string otherwise. */
  function NotesCell(notes: Option<string>): (s: string)
    ensures notes.None? ==> s == ""
    ensures notes.Some? ==> s == notes.value
  {
    if notes.Some? && notes.value != "" then notes.value else ""
  }

  /** The row object built for one record: the date as `MM/dd/yyyy`,
      reading back as the record's one-based month, day and year; the
      department with its first underscore turned into a space; category,
      item, amount, supplier and payment method as they are; the notes
      verbatim or empty. */
  function ToRow(e: Expense): (r: ExportRow)
    ensures var s, d := r.date, e.date.date;
      && |s| >= 10 && s[2] == '/' && s[5] == '/'
      && (d.year < 10000 <==> |s| == 10) && (|s| > 10 ==> s[6] != '0')
      && AllDigits(s[0..2]) && DigitsValue(s[0..2]) == d.month + 1
      && AllDigits(s[3..5]) && DigitsValue(s[3..5]) == d.day
      && AllDigits(s[6..]) && DigitsValue(s[6..]) == d.year
    ensures r.department == if e.department == FrontOfHouse then "front of_house" else DepartmentName(e.department)
    ensures r.category == CategoryName(e.category) && r.item == e.item && r.supplier == e.supplier
    ensures r.paymentMethod == PaymentMethodName(e.paymentMethod)
    ensures r.amount == e.amount
    ensures r.notes == if e.notes.Some? then e.notes.value else ""
  {
    ExportRow(
      FormatMonthDayYear(e.date.date),
      DepartmentCell(e.department),
      CategoryName(e.category),
      e.item,
      e.amount,
      e.supplier,
      PaymentMethodName(e.paymentMethod),
      NotesCell(e.notes))
  }

  // ---------------------------------------------------------------------
  // The date range.
  // ---------------------------------------------------------------------

  /** 23:59:59.000 in milliseconds since midnight. */
  const EndOfDayTime: nat := 86_399_000

  /** `isWithinInterval(t, { start, end })` for `start` not after `end`:
      both ends are included, and anything earlier than `start` or later
      than `end` is not. */
  function WithinInterval(t: Instant, start: Instant, end: Instant): (b: bool)
    requires InstantLe(start, end)
    ensures t == start || t == end ==> b
    ensures b <==> !(InstantLe(t, start) && t != start) && !(InstantLe(end, t) && t != end)
  {
    InstantLe(start, t) && InstantLe(t, end)
  }

  function Within(start: Instant, end: Instant): Expense -> bool
    requires InstantLe(start, end)
  {
    (e: Expense) => WithinInterval(e.date, start, end)
  }

  /** The export range in calendar terms: from the start day, through the
      end day up to 23:59:59.000 of that day. */
  predicate InExportRange(t: Instant, startDate: CalendarDate, endDate: CalendarDate)
  {
    DateLe(startDate, t.date) && DateLe(t.date, endDate) && (t.date == endDate ==> t.time <= EndOfDayTime)
  }

  function InRange(startDate: CalendarDate, endDate: CalendarDate): Expense -> bool
  {
    (e: Expense) => InExportRange(e.date, startDate, endDate)
  }

  /** The records exported for a range, in store order. */
  function Selected(expenses: seq<Expense>, startDate: CalendarDate, endDate: CalendarDate): (r: seq<Expense>)
    ensures forall e :: e in r <==> e in expenses && InExportRange(e.date, startDate, endDate)
    ensures |r| <= |expenses|
  {
    Filter(InRange(startDate, endDate), expenses)
  }

  /** Midnight of the start day and 23:59:59.000 of the end day are
      exported; any instant of a day before the start, of a day after the
      end, or after 23:59:59.000 on the end day is not. */
  lemma RangeBoundaries(startDate: CalendarDate, endDate: CalendarDate, t: Instant)
    requires DateLe(startDate, endDate)
    ensures InExportRange(StartOfDay(startDate), startDate, endDate)
    ensures InExportRange(Instant(endDate, EndOfDayTime), startDate, endDate)
    ensures !InExportRange(Instant(endDate, EndOfDayTime + 1), startDate, endDate)
    ensures DateLe(t.date, startDate) && t.date != startDate ==> !InExportRange(t, startDate, endDate)
    ensures DateLe(endDate, t.date) && t.date != endDate ==> !InExportRange(t, startDate, endDate)
  {
  }

  /** The selected records appear in the store in the same order. */
  lemma SelectedInOrder(expenses: seq<Expense>, startDate: CalendarDate, endDate: CalendarDate)
    ensures IsSubsequence(Selected(expenses, startDate, endDate), expenses)
  {
    FilterIsSubsequence(InRange(startDate, endDate), expenses);
  }

  /** The instants `handleExport` compares against, from `parse` and
      `setHours(23, 59, 59)`, delimit exactly the calendar range. */
  lemma WindowIsExportRange(startDate: CalendarDate, endDate: CalendarDate, t: Instant)
    requires DateLe(startDate, endDate)
    ensures var end := SetHours(StartOfDay(endDate), 23, 59, 59);
      WithinInterval(t, StartOfDay(startDate), end) <==> InExportRange(t, startDate, endDate)
  {
    var end := SetHours(StartOfDay(endDate), 23, 59, 59);
    assert end.date == endDate && end.time == EndOfDayTime;
  }

  // ---------------------------------------------------------------------
  // File name and the export itself.
  // ---------------------------------------------------------------------

  /** `expenses_<yyyyMMdd of start>_to_<yyyyMMdd of end>.xlsx`: the two
      compact dates sit between the fixed pieces at positions fixed by the
      start's length; 34 characters exactly when both years have four
      digits. */
  function FileName(startDate: CalendarDate, endDate: CalendarDate): (r: string)
    ensures var a, b := FormatCompact(startDate), FormatCompact(endDate);
      && |r| == |a| + |b| + 18
      && r[..9] == "expenses_" && r[9..9 + |a|] == a && r[9 + |a|..13 + |a|] == "_to_"
      && r[13 + |a|..|r| - 5] == b && r[|r| - 5..] == ".xlsx"
    ensures startDate.year < 10000 && endDate.year < 10000 <==> |r| == 34
  {
    var a, b := FormatCompact(startDate), FormatCompact(endDate);
    NameFields(a, b);
    "expenses_" + a + "_to_" + b + ".xlsx"
  }

  /** The pieces of a file name can be cut apart again. */
  lemma NameFields(a: string, b: string)
    ensures var r := "expenses_" + a + "_to_" + b + ".xlsx";
      && |r| == |a| + |b| + 18
      && r[..9] == "expenses_" && r[9..9 + |a|] == a && r[9 + |a|..13 + |a|] == "_to_"
      && r[13 + |a|..|r| - 5] == b && r[|r| - 5..] == ".xlsx"
  {
    var r := "expenses_" + a + "_to_" + b + ".xlsx";
    assert r[..9] == "expenses_";
    assert r[9..9 + |a|] == a;
    assert r[9 + |a|..13 + |a|] == "_to_";
    assert r[13 + |a|..|r| - 5] == b;
    assert r[|r| - 5..] == ".xlsx";
  }

  /** After the prefix a file name holds the start date's digits and then
      the `_` of `_to_`. */
  lemma SeparatorAfterStart(startDate: CalendarDate, endDate: CalendarDate)
    ensures var r, a := FileName(startDate, endDate), FormatCompact(startDate);
      && (forall i :: 9 <= i < 9 + |a| ==> IsDigit(r[i]))
      && r[9 + |a|] == '_'
  {
    var r, a := FileName(startDate, endDate), FormatCompact(startDate);
    forall i | 9 <= i < 9 + |a| ensures IsDigit(r[i]) {
      assert r[i] == r[9..9 + |a|][i - 9];
    }
    assert r[9 + |a|] == r[9 + |a|..13 + |a|][0];
  }

  /** In equal file names the start dates have equal lengths: the `_` of
      one name cannot fall among the digits of the other. */
  lemma StartFieldLength(s1: CalendarDate, e1: CalendarDate, s2: CalendarDate, e2: CalendarDate)
    requires FileName(s1, e1) == FileName(s2, e2)
    ensures |FormatCompact(s1)| >= |FormatCompact(s2)|
  {
    SeparatorAfterStart(s1, e1);
    SeparatorAfterStart(s2, e2);
    assert !IsDigit(FileName(s2, e2)[9 + |FormatCompact(s1)|]);
  }

  /** The file name names its range uniquely, whatever the years' lengths:
      the start date's digits run up to the first `_` after the prefix. */
  lemma FileNameDeterminesRange(s1: CalendarDate, e1: CalendarDate, s2: CalendarDate, e2: CalendarDate)
    ensures FileName(s1, e1) == FileName(s2, e2) ==> s1 == s2 && e1 == e2
  {
    var n1, n2 := FileName(s1, e1), FileName(s2, e2);
    if n1 == n2 {
      var a1, a2 := FormatCompact(s1), FormatCompact(s2);
      StartFieldLength(s1, e1, s2, e2);
      StartFieldLength(s2, e2, s1, e1);
      CompactInjective(s1, s2);
      CompactInjective(e1, e2);
    }
  }

  /** `handleExport`: parse the range, push the end to 23:59:59, keep the
      records inside it, build one row per record in the same order, and
      name the file after the range. `columns` is the key order every row
      object carries. */
  method HandleExport(expenses: seq<Expense>, startDate: CalendarDate, endDate: CalendarDate) returns (out: Export)
    requires DateLe(startDate, endDate)
    ensures out.columns == Columns
    ensures var selected := Selected(expenses, startDate, endDate);
      && |out.rows| == |selected|
      && forall k :: 0 <= k < |out.rows| ==> out.rows[k] == ToRow(selected[k])
    ensures out.fileName == FileName(startDate, endDate)
  {
    var start := StartOfDay(startDate);
    var end := StartOfDay(endDate);
    end := SetHours(end, 23, 59, 59);

    var filtered := Filter(Within(start, end), expenses);
    forall e | e in expenses ensures Within(start, end)(e) == InRange(startDate, endDate)(e) {
      WindowIsExportRange(startDate, endDate, e.date);
    }
    FilterCongruent(Within(start, end), InRange(startDate, endDate), expenses);

    var rows := seq(|filtered|, k requires 0 <= k < |filtered| => ToRow(filtered[k]));
    var fileName := "expenses_" + FormatCompact(start.date) + "_to_" + FormatCompact(end.date) + ".xlsx";
    out := Export(Columns, rows, fileName);
  }
}
