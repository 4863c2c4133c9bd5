/**
 * The CSV workout-history normaliser (services/csvParser.ts): a quote-aware
 * field splitter, the import of a whole export (schema detection, column
 * mapping, row extraction, grouping by date, newest-first ordering) and the
 * compact text digest sent to the analysis service.
 */
module CsvParser {
  import opened Wrappers
  import opened Types
  import opened Strings
  import opened Grouping
  import opened Sorting

  // ---------------------------------------------------------------------------
  // Splitting one line into fields
  // ---------------------------------------------------------------------------

  /** Whether the scan is inside quotes just before position `i`: every `"` before `i` toggles it. */
  function InQuotes(line: string, i: nat): bool
    requires i <= |line|
  {
    if i == 0 then false
    else if line[i - 1] == '"' then !InQuotes(line, i - 1)
    else InQuotes(line, i - 1)
  }

  /** A field boundary: a comma met outside quotes. */
  predicate IsSeparator(line: string, i: nat)
    requires i < |line|
  {
    line[i] == ',' && !InQuotes(line, i)
  }

  /** How many field boundaries lie before position `n`. */
  function SeparatorCount(line: string, n: nat): nat
    requires n <= |line|
  {
    if n == 0 then 0
    else SeparatorCount(line, n - 1) + (if IsSeparator(line, n - 1) then 1 else 0)
  }

  /**
   * The raw fields of `line[..n]`: the texts between consecutive boundaries,
   * quotes included. A boundary opens a new, empty field; any other character
   * extends the last field.
   */
  function RawFieldsUpTo(line: string, n: nat): (r: seq<string>)
    requires n <= |line|
    ensures |r| >= 1
  {
    if n == 0 then [""]
    else
      var r := RawFieldsUpTo(line, n - 1);
      if IsSeparator(line, n - 1) then r + [""]
      else r[..|r| - 1] + [r[|r| - 1] + [line[n - 1]]]
  }

  function RawFields(line: string): seq<string> {
    RawFieldsUpTo(line, |line|)
  }

  /** `replace(/^"|"$/g, '')`: at most one leading and one trailing quote removed. */
  function Unquote(f: string): (r: string)
    ensures |f| - 2 <= |r| <= |f|
  {
    var a := if f != [] && f[0] == '"' then f[1..] else f;
    if a != [] && a[|a| - 1] == '"' then a[..|a| - 1] else a
  }

  /** One field as the splitter emits it: unquoted first, then trimmed. */
  function CleanField(f: string): string {
    Trim(Unquote(f))
  }

  /** Every raw field cleaned, in order. */
  function CleanAll(raw: seq<string>): (r: seq<string>)
    ensures |r| == |raw|
  {
    seq(|raw|, k requires 0 <= k < |raw| => CleanField(raw[k]))
  }

  /** The fields of a CSV line. */
  function CsvFields(line: string): seq<string> {
    CleanAll(RawFields(line))
  }

  /** `parseCSVLine`: one scan, pushing a cleaned field at each boundary and once at the end. */
  method ParseCSVLine(line: string) returns (result: seq<string>)
    ensures result == CsvFields(line)
  {
    result := [];
    var start: nat := 0;
    var inQuotes := false;
    ghost var raw: seq<string> := [];
    for i := 0 to |line|
      invariant ScanState(line, i, start, inQuotes, raw, result)
    {
      raw, result, start, inQuotes := ScanChar(line, i, start, inQuotes, raw, result);
    }
    FinishScan(line, start, inQuotes, raw, result);
    result := result + [CleanField(line[start..])];
  }

  /** What the scan knows after reading `line[..i]`. */
  ghost predicate ScanState(line: string, i: nat, start: nat, inQuotes: bool, raw: seq<string>, result: seq<string>)
  {
    start <= i <= |line| && inQuotes == InQuotes(line, i) &&
    RawFieldsUpTo(line, i) == raw + [line[start..i]] && result == CleanAll(raw)
  }

  /** One iteration of the scan: a quote toggles the flag, a boundary pushes the cleaned field. */
  method ScanChar(line: string, i: nat, start: nat, inQuotes: bool, ghost raw: seq<string>, result: seq<string>)
    returns (ghost raw': seq<string>, result': seq<string>, start': nat, inQuotes': bool)
    requires i < |line| && ScanState(line, i, start, inQuotes, raw, result)
    ensures ScanState(line, i + 1, start', inQuotes', raw', result')
  {
    raw', result', start', inQuotes' := raw, result, start, inQuotes;
    if line[i] == '"' {
      inQuotes' := !inQuotes;
      ExtendField(line, i, raw, start);
    } else if line[i] == ',' && !inQuotes {
      CloseField(line, i, raw, start);
      CleanAllSnoc(raw, line[start..i]);
      result' := result + [CleanField(line[start..i])];
      raw' := raw + [line[start..i]];
      start' := i + 1;
    } else {
      ExtendField(line, i, raw, start);
    }
  }

  /** At the end of the line the open field is the last one. */
  lemma FinishScan(line: string, start: nat, inQuotes: bool, raw: seq<string>, result: seq<string>)
    requires ScanState(line, |line|, start, inQuotes, raw, result)
    ensures CsvFields(line) == result + [CleanField(line[start..])]
  {
    assert line[start..|line|] == line[start..];
    CleanAllSnoc(raw, line[start..]);
  }

  /** A character that is not a boundary extends the open field. */
  lemma ExtendField(line: string, i: nat, raw: seq<string>, start: nat)
    requires start <= i < |line| && !IsSeparator(line, i)
    requires RawFieldsUpTo(line, i) == raw + [line[start..i]]
    ensures RawFieldsUpTo(line, i + 1) == raw + [line[start..i + 1]]
  {
    var r := RawFieldsUpTo(line, i);
    assert r[..|r| - 1] == raw;
    assert line[start..i + 1] == line[start..i] + [line[i]];
  }

  /** A boundary closes the open field and opens an empty one. */
  lemma CloseField(line: string, i: nat, raw: seq<string>, start: nat)
    requires start <= i < |line| && IsSeparator(line, i)
    requires RawFieldsUpTo(line, i) == raw + [line[start..i]]
    ensures RawFieldsUpTo(line, i + 1) == (raw + [line[start..i]]) + [line[i + 1..i + 1]]
  {
    assert line[i + 1..i + 1] == "";
  }

  lemma CleanAllSnoc(raw: seq<string>, f: string)
    ensures CleanAll(raw + [f]) == CleanAll(raw) + [CleanField(f)]
  {
  }

  /** A line has exactly one more field than it has commas outside quotes. */
  lemma {:induction false} FieldCount(line: string, n: nat)
    requires n <= |line|
    ensures |RawFieldsUpTo(line, n)| == 1 + SeparatorCount(line, n)
  {
    if n > 0 {
      FieldCount(line, n - 1);
    }
  }

  /** `parseCSVLine` yields 1 + (number of commas outside quotes) fields. */
  lemma CsvFieldCount(line: string)
    ensures |CsvFields(line)| == 1 + SeparatorCount(line, |line|)
  {
    FieldCount(line, |line|);
  }

  lemma JoinSnoc(pieces: seq<string>, x: string, sep: string)
    requires pieces != []
    ensures Join(pieces + [x], sep) == Join(pieces, sep) + sep + x
  {
    if |pieces| > 1 {
      assert (pieces + [x])[1..] == pieces[1..] + [x];
      JoinSnoc(pieces[1..], x, sep);
    }
  }

  /** The raw fields joined with commas give the line back: splitting loses no character. */
  lemma {:induction false} RawFieldsJoin(line: string, n: nat)
    requires n <= |line|
    ensures Join(RawFieldsUpTo(line, n), ",") == line[..n]
  {
    if n > 0 {
      RawFieldsJoin(line, n - 1);
      var r := RawFieldsUpTo(line, n - 1);
      assert line[..n] == line[..n - 1] + [line[n - 1]];
      if IsSeparator(line, n - 1) {
        JoinSnoc(r, "", ",");
      } else {
        var init, last := r[..|r| - 1], r[|r| - 1];
        if init == [] {
          assert r == [last];
        } else {
          assert r == init + [last];
          JoinSnoc(init, last, ",");
          JoinSnoc(init, last + [line[n - 1]], ",");
        }
      }
    }
  }


  /** Opening a quoted section sets the flag, and it stays set until the next quote. */
  lemma {:induction false} InsideQuotes(line: string, i: nat, k: nat)
    requires i < k <= |line| && line[i] == '"' && !InQuotes(line, i)
    requires forall m :: i < m < k ==> line[m] != '"'
    ensures InQuotes(line, k)
  {
    if k > i + 1 {
      InsideQuotes(line, i, k - 1);
    }
  }

  /** No comma between an opening quote and the next quote ends a field. */
  lemma QuotedCommasAreNotBoundaries(line: string, i: nat, j: nat)
    requires i < j <= |line| && line[i] == '"' && !InQuotes(line, i)
    requires forall m :: i < m < j ==> line[m] != '"'
    ensures forall k :: i < k < j ==> !IsSeparator(line, k)
  {
    forall k | i < k < j
      ensures !IsSeparator(line, k)
    {
      InsideQuotes(line, i, k);
    }
  }

  // ---------------------------------------------------------------------------
  // Lines, schema detection and column mapping
  // ---------------------------------------------------------------------------

  /** A piece without the `\r` that `split(/\r?\n/)` treats as part of the line break. */
  function DropCR(p: string): (r: string)
    ensures r == p || (p == r + "\r")
  {
    if p != [] && p[|p| - 1] == '\r' then p[..|p| - 1] else p
  }

  /** `split(/\r?\n/)`: the pieces between line feeds, each but the last losing a `\r` before its line feed. */
  function SplitLines(text: string): (r: seq<string>)
    ensures |r| >= 1 && (|r| == 1 <==> '\n' !in text)
    ensures forall k :: 0 <= k < |r| ==> '\n' !in r[k]
  {
    var pieces := SplitOn(text, '\n');
    seq(|pieces|, k requires 0 <= k < |pieces| => if k < |pieces| - 1 then DropCR(pieces[k]) else pieces[k])
  }

  /** `filter(line => line.trim() !== '')`: the non-blank lines, in order. */
  function NonBlank(ls: seq<string>): (r: seq<string>)
    ensures |r| <= |ls|
    ensures forall k :: 0 <= k < |r| ==> r[k] in ls && Trim(r[k]) != []
    ensures forall k :: 0 <= k < |ls| && Trim(ls[k]) != [] ==> ls[k] in r
  {
    if ls == [] then []
    else (if Trim(ls[0]) != [] then [ls[0]] else []) + NonBlank(ls[1..])
  }

  /** The lines of an export that the importer looks at: no line feed inside, none blank. */
  function Lines(text: string): (r: seq<string>)
    ensures forall k :: 0 <= k < |r| ==> '\n' !in r[k] && Trim(r[k]) != []
  {
    NonBlank(SplitLines(text))
  }

  /** The exporters the importer recognises by their header names. */
  datatype Schema = Hevy | Strong | GenericSchema

  /** Hevy is checked first: a header with both sets of names counts as Hevy. */
  function DetectSchema(headers: seq<string>): Schema {
    if "title" in headers && "weight_kg" in headers then Hevy
    else if "workout name" in headers && "weight" in headers then Strong
    else GenericSchema
  }

  /** The column of each field, `None` where the JavaScript index is -1. */
  datatype Columns = Columns(date: Option<nat>, title: Option<nat>, exercise: Option<nat>,
                             weight: Option<nat>, reps: Option<nat>, rpe: Option<nat>)

  predicate Below(i: Option<nat>, n: nat) {
    i.None? || i.value < n
  }

  /** Every column found is a column of a `width`-field row. */
  predicate InRange(c: Columns, width: nat) {
    Below(c.date, width) && Below(c.title, width) && Below(c.exercise, width) &&
    Below(c.weight, width) && Below(c.reps, width) && Below(c.rpe, width)
  }

  /** The loose match of the generic fallback: the header contains either word. */
  predicate Mentions(h: string, a: string, b: string) {
    Contains(h, a) || Contains(h, b)
  }

  /**
   * Column mapping: exact header names for Hevy and Strong, the first header
   * mentioning a keyword for anything else (which never has a title or RPE column).
   */
  function MapColumns(headers: seq<string>): (c: Columns)
    ensures InRange(c, |headers|)
    ensures c.title.Some? <==> DetectSchema(headers) != GenericSchema
    ensures DetectSchema(headers) == GenericSchema ==> c.rpe.None?
    ensures DetectSchema(headers) == Hevy ==> c.weight.Some? && headers[c.weight.value] == "weight_kg"
    ensures DetectSchema(headers) == Strong ==> c.weight.Some? && headers[c.weight.value] == "weight"
  {
    match DetectSchema(headers)
    case Hevy =>
      Columns(FirstIndex(headers, "start_time"), FirstIndex(headers, "title"),
              FirstIndex(headers, "exercise_title"), FirstIndex(headers, "weight_kg"),
              FirstIndex(headers, "reps"), FirstIndex(headers, "rpe"))
    case Strong =>
      Columns(FirstIndex(headers, "date"), FirstIndex(headers, "workout name"),
              FirstIndex(headers, "exercise name"), FirstIndex(headers, "weight"),
              FirstIndex(headers, "reps"), FirstIndex(headers, "rpe"))
    case GenericSchema =>
      Columns(FindIndex(headers, h => Mentions(h, "date", "fecha")), None,
              FindIndex(headers, h => Mentions(h, "exercise", "ejercicio")),
              FindIndex(headers, h => Mentions(h, "weight", "peso")),
              FindIndex(headers, h => Mentions(h, "reps", "repeticiones")), None)
  }

  // ---------------------------------------------------------------------------
  // Rows
  // ---------------------------------------------------------------------------

  /** The title of a session when the export has no title column. */
  const DefaultTitle := "Entrenamiento"

  /** One accepted data line: the session it belongs to and the set it records. */
  datatype Row = Row(dateKey: string, title: string, workoutSet: WorkoutSet)

  /** `rawDate.split(' ')[0]`: the date without the time of day. */
  function DateKeyOf(rawDate: string): (k: string)
    ensures ' ' !in k && StartsWith(rawDate, k)
    ensures ' ' !in rawDate ==> k == rawDate
  {
    SplitOn(rawDate, ' ')[0]
  }

  /** `parseFloat(cell) || 0`: an unreadable cell and zero both give 0. */
  function NumberOrZero(cell: string): nat {
    match ParseFloat(cell)
    case Num(v) => v
    case NaN => 0
  }

  /** A numeric cell of an optional column; a missing column reads as `parseFloat(undefined) || 0`, i.e. 0. */
  function NumberAt(cols: seq<string>, i: Option<nat>): nat
    requires Below(i, |cols|)
  {
    if i.Some? then NumberOrZero(cols[i.value]) else 0
  }

  /** The row a data line of at least `|headers|` fields yields. */
  function RowOf(cols: seq<string>, c: Columns): (r: Row)
    requires InRange(c, |cols|) && c.date.Some? && c.exercise.Some?
    ensures ' ' !in r.dateKey && StartsWith(cols[c.date.value], r.dateKey)
    ensures r.workoutSet.exercise == cols[c.exercise.value]
    ensures c.title.None? ==> r.title == DefaultTitle
    ensures c.rpe.None? <==> r.workoutSet.rpe.None?
    ensures c.rpe.Some? ==> r.workoutSet.rpe == Some(ParseFloat(cols[c.rpe.value]))
    ensures r.workoutSet.setType == Normal
  {
    Row(DateKeyOf(cols[c.date.value]),
        if c.title.Some? then cols[c.title.value] else DefaultTitle,
        WorkoutSet(cols[c.exercise.value], NumberAt(cols, c.weight), NumberAt(cols, c.reps),
                   if c.rpe.Some? then Some(ParseFloat(cols[c.rpe.value])) else None, Normal))
  }

  /** The rows of the data lines, in file order; a line with fewer fields than the header is skipped. */
  function AcceptedRows(dataLines: seq<string>, width: nat, c: Columns): (rows: seq<Row>)
    requires InRange(c, width) && c.date.Some? && c.exercise.Some?
    ensures |rows| <= |dataLines|
  {
    if dataLines == [] then []
    else
      var init := AcceptedRows(dataLines[..|dataLines| - 1], width, c);
      var cols := CsvFields(dataLines[|dataLines| - 1]);
      if |cols| < width then init else init + [RowOf(cols, c)]
  }

  /** The rows an export yields: none without a data line or without a date and an exercise column. */
  function HistoryRows(text: string): seq<Row> {
    var lines := Lines(text);
    if |lines| < 2 then []
    else
      var headers := CsvFields(ToLower(lines[0]));
      var c := MapColumns(headers);
      if c.date.None? || c.exercise.None? then []
      else AcceptedRows(lines[1..], |headers|, c)
  }

  // ---------------------------------------------------------------------------
  // Grouping rows into sessions
  // ---------------------------------------------------------------------------

  function DateKeys(rows: seq<Row>): (ks: seq<string>)
    ensures |ks| == |rows| && forall i :: 0 <= i < |rows| ==> ks[i] == rows[i].dateKey
  {
    seq(|rows|, i requires 0 <= i < |rows| => rows[i].dateKey)
  }

  /** The sets of the rows dated `d`, in file order. */
  function SetsOn(rows: seq<Row>, d: string): seq<WorkoutSet> {
    if rows == [] then []
    else
      var last := rows[|rows| - 1];
      SetsOn(rows[..|rows| - 1], d) + (if last.dateKey == d then [last.workoutSet] else [])
  }

  /** The title of the first row dated `d`: the session object is created by that row. */
  function FirstTitle(rows: seq<Row>, d: string): string {
    match FirstIndex(DateKeys(rows), d)
    case Some(i) => rows[i].title
    case None => DefaultTitle
  }

  /** The session the importer builds for date `d`. */
  function SessionFor(rows: seq<Row>, d: string): WorkoutSession {
    WorkoutSession(d, FirstTitle(rows, d), SetsOn(rows, d))
  }

  /** One session per distinct date, in order of first appearance (the dictionary's enumeration order). */
  function Groups(rows: seq<Row>): (ss: seq<WorkoutSession>)
    ensures |ss| == |Distinct(DateKeys(rows))|
  {
    var keys := Distinct(DateKeys(rows));
    seq(|keys|, k requires 0 <= k < |keys| => SessionFor(rows, keys[k]))
  }

  /** What a session contributes when one more row is read. */
  lemma SessionForSnoc(rows: seq<Row>, r: Row, d: string)
    ensures SessionFor(rows + [r], d) ==
      if d != r.dateKey then SessionFor(rows, d)
      else if d in DateKeys(rows) then SessionFor(rows, d).(sets := SetsOn(rows, d) + [r.workoutSet])
      else WorkoutSession(d, r.title, [r.workoutSet])
  {
    var rows' := rows + [r];
    assert rows'[..|rows|] == rows;
    assert DateKeys(rows') == DateKeys(rows) + [r.dateKey];
    FirstIndexSnoc(DateKeys(rows), r.dateKey, d);
    if d !in DateKeys(rows) {
      assert SetsOn(rows, d) == [] by { NoSetsWithoutDate(rows, d); }
    }
  }

  lemma {:induction false} NoSetsWithoutDate(rows: seq<Row>, d: string)
    requires d !in DateKeys(rows)
    ensures SetsOn(rows, d) == []
  {
    if rows != [] {
      var init := rows[..|rows| - 1];
      assert forall i :: 0 <= i < |init| ==> DateKeys(init)[i] == DateKeys(rows)[i];
      NoSetsWithoutDate(init, d);
    }
  }

  // ---------------------------------------------------------------------------
  // Ordering sessions newest first
  // ---------------------------------------------------------------------------

  /** `new Date(date).getTime()` on a `year-month-day` key, as a day number; anything else reads as 0. */
  function TimeOf(date: string): nat {
    var p := SplitOn(date, '-');
    if |p| == 3 && p[0] != [] && p[1] != [] && p[2] != [] && AllDigits(p[0]) && AllDigits(p[1]) && AllDigits(p[2])
       && 1 <= DigitsValue(p[1]) <= 12 && 1 <= DigitsValue(p[2]) <= 31
    then DayNumber(DigitsValue(p[0]), DigitsValue(p[1]), DigitsValue(p[2]))
    else 0
  }

  /** A calendar date as one number that keeps the (year, month, day) order. */
  function DayNumber(year: nat, month: nat, day: nat): nat {
    year * 10000 + month * 100 + day
  }

  /** The sort key of a session. */
  function SessionTime(s: WorkoutSession): int {
    TimeOf(s.date)
  }

  function SessionDate(s: WorkoutSession): string {
    s.date
  }

  /** `sort((a, b) => time(b.date) - time(a.date))`: newest first, ties in their original order. */
  function SortNewestFirst(ss: seq<WorkoutSession>): (r: seq<WorkoutSession>)
    ensures multiset(r) == multiset(ss)
  {
    SortDesc(ss, SessionTime)
  }

  /** `parseWorkoutCSV`: the sessions of an export, newest first. */
  function WorkoutHistory(text: string): seq<WorkoutSession> {
    SortNewestFirst(Groups(HistoryRows(text)))
  }

  /** The dictionary the import loop builds from `rows`: each date seen, mapped to its session. */
  ghost function SessionsMap(rows: seq<Row>): map<string, WorkoutSession> {
    map d | d in DateKeys(rows) :: SessionFor(rows, d)
  }

  /** `parseWorkoutCSV`: read the lines, map the columns, group the rows by date, sort newest first. */
  method ParseWorkoutCSV(csvText: string) returns (sessions: seq<WorkoutSession>)
    ensures sessions == WorkoutHistory(csvText)
  {
    HistoryCases(csvText);
    var lines := Lines(csvText);
    if |lines| < 2 {
      return [];
    }
    var headers := ParseCSVLine(ToLower(lines[0]));
    var c := MapColumns(headers);
    if c.date.None? || c.exercise.None? {
      return [];
    }
    sessions := GroupAndSort(lines, |headers|, c);
  }

  /** The rest of `parseWorkoutCSV` once the columns are known: group the data lines, then sort. */
  method GroupAndSort(lines: seq<string>, width: nat, c: Columns) returns (sessions: seq<WorkoutSession>)
    requires |lines| >= 1 && InRange(c, width) && c.date.Some? && c.exercise.Some?
    ensures sessions == SortNewestFirst(Groups(AcceptedRows(lines[1..], width, c)))
  {
    var sessionsMap, keys := GroupRows(lines, width, c);
    GroupsFromMap(AcceptedRows(lines[1..], width, c));
    sessions := SortNewestFirst(seq(|keys|, k requires 0 <= k < |keys| => sessionsMap[keys[k]]));
  }

  /** The three outcomes of an import: too few lines, no date or exercise column, or the grouped rows. */
  lemma HistoryCases(text: string)
    ensures var lines := Lines(text);
      if |lines| < 2 then WorkoutHistory(text) == []
      else
        var headers := CsvFields(ToLower(lines[0]));
        var c := MapColumns(headers);
        if c.date.None? || c.exercise.None? then WorkoutHistory(text) == []
        else WorkoutHistory(text) == SortNewestFirst(Groups(AcceptedRows(lines[1..], |headers|, c)))
  {
    assert Groups([]) == [];
  }

  /** The loop of `parseWorkoutCSV`: each data line with enough fields adds its set to its day's session. */
  method GroupRows(lines: seq<string>, width: nat, c: Columns)
    returns (sessionsMap: map<string, WorkoutSession>, keys: seq<string>)
    requires |lines| >= 1 && InRange(c, width) && c.date.Some? && c.exercise.Some?
    ensures var rows := AcceptedRows(lines[1..], width, c);
      keys == Distinct(DateKeys(rows)) && sessionsMap == SessionsMap(rows)
  {
    sessionsMap, keys := map[], [];
    ghost var rows: seq<Row> := [];
    for i := 1 to |lines|
      invariant rows == AcceptedRows(lines[1..i], width, c)
      invariant keys == Distinct(DateKeys(rows)) && sessionsMap == SessionsMap(rows)
    {
      var cols := ParseCSVLine(lines[i]);
      AcceptedRowsSnoc(lines, i, width, c);
      if |cols| >= width {
        sessionsMap, keys := RecordRow(sessionsMap, keys, RowOf(cols, c), rows);
        rows := rows + [RowOf(cols, c)];
      }
    }
    assert lines[1..|lines|] == lines[1..];
  }

  lemma AcceptedRowsSnoc(lines: seq<string>, i: nat, width: nat, c: Columns)
    requires 1 <= i < |lines| && InRange(c, width) && c.date.Some? && c.exercise.Some?
    ensures AcceptedRows(lines[1..i + 1], width, c) ==
      var cols := CsvFields(lines[i]);
      AcceptedRows(lines[1..i], width, c) + (if |cols| < width then [] else [RowOf(cols, c)])
  {
    var d := lines[1..i + 1];
    assert |d| == i && d[..|d| - 1] == lines[1..i] && d[|d| - 1] == lines[i];
  }

  /** The dictionary's values, enumerated in first-appearance order of their keys, are the grouped sessions. */
  lemma GroupsFromMap(rows: seq<Row>)
    ensures var keys := Distinct(DateKeys(rows));
      (forall k :: 0 <= k < |keys| ==> keys[k] in SessionsMap(rows)) &&
      seq(|keys|, k requires 0 <= k < |keys| => SessionsMap(rows)[keys[k]]) == Groups(rows)
  {
    var keys := Distinct(DateKeys(rows));
    forall k | 0 <= k < |keys|
      ensures keys[k] in SessionsMap(rows)
    {
      DistinctMembers(DateKeys(rows), keys[k]);
    }
  }

  /** One accepted row: create the day's session on its first row, then push the set. */
  method RecordRow(sessionsMap: map<string, WorkoutSession>, keys: seq<string>, row: Row, ghost rows: seq<Row>)
    returns (sessionsMap': map<string, WorkoutSession>, keys': seq<string>)
    requires keys == Distinct(DateKeys(rows)) && sessionsMap == SessionsMap(rows)
    ensures keys' == Distinct(DateKeys(rows + [row])) && sessionsMap' == SessionsMap(rows + [row])
  {
    sessionsMap', keys' := sessionsMap, keys;
    var d := row.dateKey;
    KeysSnoc(rows, row);
    SessionsMapSnoc(rows, row);
    SessionForSnoc(rows, row, d);
    if d !in sessionsMap' {
      sessionsMap' := sessionsMap'[d := WorkoutSession(d, row.title, [])];
      keys' := keys' + [d];
    }
    var s := sessionsMap'[d];
    sessionsMap' := sessionsMap'[d := s.(sets := s.sets + [row.workoutSet])];
  }

  /** Reading one more row adds its date to the key list when the date is new. */
  lemma KeysSnoc(rows: seq<Row>, row: Row)
    ensures row.dateKey in Distinct(DateKeys(rows)) <==> row.dateKey in DateKeys(rows)
    ensures Distinct(DateKeys(rows + [row])) ==
      if row.dateKey in DateKeys(rows) then Distinct(DateKeys(rows)) else Distinct(DateKeys(rows)) + [row.dateKey]
  {
    DistinctMembers(DateKeys(rows), row.dateKey);
    assert DateKeys(rows + [row]) == DateKeys(rows) + [row.dateKey];
    DistinctSnoc(DateKeys(rows), row.dateKey);
  }

  /** Reading one more row touches only the dictionary entry of its date. */
  lemma SessionsMapSnoc(rows: seq<Row>, row: Row)
    ensures SessionsMap(rows + [row]) == SessionsMap(rows)[row.dateKey := SessionFor(rows + [row], row.dateKey)]
  {
    var d := row.dateKey;
    var m, m' := SessionsMap(rows), SessionsMap(rows + [row]);
    assert DateKeys(rows + [row]) == DateKeys(rows) + [d];
    forall e | e in m' && e != d
      ensures e in m && m'[e] == m[e]
    {
      SessionForOther(rows, row, e);
    }
  }

  /** A row leaves the sessions of other dates unchanged. */
  lemma SessionForOther(rows: seq<Row>, row: Row, e: string)
    requires e != row.dateKey
    ensures SessionFor(rows + [row], e) == SessionFor(rows, e)
    ensures e in DateKeys(rows + [row]) <==> e in DateKeys(rows)
  {
    var rows' := rows + [row];
    assert rows'[..|rows|] == rows;
    assert DateKeys(rows') == DateKeys(rows) + [row.dateKey];
    FirstIndexSnoc(DateKeys(rows), row.dateKey, e);
  }

  // ---------------------------------------------------------------------------
  // What an import yields
  // ---------------------------------------------------------------------------

  /** The import lists the sessions newest first. */
  lemma HistoryNewestFirst(text: string)
    ensures Descending(WorkoutHistory(text), SessionTime)
  {
    SortDescOrdered(Groups(HistoryRows(text)), SessionTime);
  }

  /** Sessions of the same day keep the order in which their dates first appear in the file. */
  lemma HistorySameDayInFileOrder(text: string, t: int)
    ensures WithKey(WorkoutHistory(text), SessionTime, t) == WithKey(Groups(HistoryRows(text)), SessionTime, t)
  {
    SortDescStable(Groups(HistoryRows(text)), SessionTime, t);
  }

  lemma GroupsUnique(rows: seq<Row>)
    ensures Unique(Groups(rows), SessionDate)
  {
    DistinctNoDuplicates(DateKeys(rows));
  }

  /** Every session of `Groups(rows)` is the session of its own date, and every row's date has one. */
  lemma GroupsMembers(rows: seq<Row>, s: WorkoutSession)
    ensures s in Groups(rows) <==> s.date in DateKeys(rows) && s == SessionFor(rows, s.date)
  {
    var keys := Distinct(DateKeys(rows));
    DistinctMembers(DateKeys(rows), s.date);
    if s.date in keys {
      var k :| 0 <= k < |keys| && keys[k] == s.date;
      assert Groups(rows)[k] == SessionFor(rows, s.date);
    }
  }

  /**
   * An import has exactly one session per date that occurs in an accepted row,
   * and that session holds the title of the date's first row and the date's sets in file order.
   */
  lemma HistoryIsGrouping(text: string, s: WorkoutSession)
    ensures Unique(WorkoutHistory(text), SessionDate)
    ensures s in WorkoutHistory(text) <==> s.date in DateKeys(HistoryRows(text)) && s == SessionFor(HistoryRows(text), s.date)
  {
    var rows := HistoryRows(text);
    GroupsUnique(rows);
    SortDescKeepsUnique(Groups(rows), SessionTime, SessionDate);
    GroupsMembers(rows, s);
    assert s in WorkoutHistory(text) <==> s in multiset(Groups(rows));
  }

  /** The number of sets in a list of sessions. */
  function TotalSets(ss: seq<WorkoutSession>): nat {
    if ss == [] then 0 else |ss[0].sets| + TotalSets(ss[1..])
  }

  lemma {:induction false} TotalSetsInsert(sorted: seq<WorkoutSession>, x: WorkoutSession)
    ensures TotalSets(InsertDesc(sorted, x, SessionTime)) == TotalSets(sorted) + |x.sets|
  {
    var r := InsertDesc(sorted, x, SessionTime);
    if sorted == [] {
      assert r == [x];
    } else if SessionTime(sorted[0]) < SessionTime(x) {
      assert r == [x] + sorted && r[1..] == sorted;
    } else {
      TotalSetsInsert(sorted[1..], x);
      assert r[1..] == InsertDesc(sorted[1..], x, SessionTime);
    }
  }

  lemma {:induction false} TotalSetsSort(ss: seq<WorkoutSession>)
    ensures TotalSets(SortNewestFirst(ss)) == TotalSets(ss)
  {
    if ss != [] {
      var init, last := ss[..|ss| - 1], ss[|ss| - 1];
      TotalSetsSort(init);
      TotalSetsInsert(SortDesc(init, SessionTime), last);
      TotalSetsSnoc(init, last);
      assert ss == init + [last];
    }
  }

  lemma {:induction false} TotalSetsSnoc(ss: seq<WorkoutSession>, x: WorkoutSession)
    ensures TotalSets(ss + [x]) == TotalSets(ss) + |x.sets|
  {
    if ss == [] {
      assert ss + [x] == [x];
    } else {
      assert (ss + [x])[1..] == ss[1..] + [x];
      TotalSetsSnoc(ss[1..], x);
    }
  }

  /** The number of sets the rows put under the dates `keys`, counting a date as often as it is listed. */
  function SetCount(keys: seq<string>, rows: seq<Row>): nat {
    if keys == [] then 0 else |SetsOn(rows, keys[0])| + SetCount(keys[1..], rows)
  }

  lemma {:induction false} TotalSetsOfSessions(keys: seq<string>, rows: seq<Row>)
    ensures TotalSets(seq(|keys|, k requires 0 <= k < |keys| => SessionFor(rows, keys[k]))) == SetCount(keys, rows)
  {
    if keys != [] {
      var ss := seq(|keys|, k requires 0 <= k < |keys| => SessionFor(rows, keys[k]));
      TotalSetsOfSessions(keys[1..], rows);
      assert ss[1..] == seq(|keys[1..]|, k requires 0 <= k < |keys[1..]| => SessionFor(rows, keys[1..][k]));
    }
  }

  /** One more row adds one set for each time its date is listed. */
  lemma {:induction false} SetCountSnoc(keys: seq<string>, rows: seq<Row>, r: Row)
    ensures SetCount(keys, rows + [r]) == SetCount(keys, rows) + multiset(keys)[r.dateKey]
  {
    if keys != [] {
      SetCountSnoc(keys[1..], rows, r);
      assert (rows + [r])[..|rows|] == rows;
      assert keys == [keys[0]] + keys[1..];
    }
  }

  /** When every row's date is listed exactly once, the listed dates hold every row's set. */
  lemma {:induction false} SetCountAll(keys: seq<string>, rows: seq<Row>)
    requires forall i :: 0 <= i < |rows| ==> multiset(keys)[rows[i].dateKey] == 1
    ensures SetCount(keys, rows) == |rows|
  {
    if rows == [] {
      SetCountNone(keys);
    } else {
      var init, r := rows[..|rows| - 1], rows[|rows| - 1];
      SetCountAll(keys, init);
      SetCountSnoc(keys, init, r);
      assert rows == init + [r];
    }
  }

  lemma {:induction false} SetCountNone(keys: seq<string>)
    ensures SetCount(keys, []) == 0
  {
    if keys != [] {
      SetCountNone(keys[1..]);
    }
  }

  /** Every accepted row's set lands in exactly one session: the import loses and duplicates nothing. */
  lemma HistorySetCount(text: string)
    ensures TotalSets(WorkoutHistory(text)) == |HistoryRows(text)|
  {
    var rows := HistoryRows(text);
    var keys := Distinct(DateKeys(rows));
    forall i | 0 <= i < |rows|
      ensures multiset(keys)[rows[i].dateKey] == 1
    {
      DistinctMultiplicity(DateKeys(rows), rows[i].dateKey);
    }
    SetCountAll(keys, rows);
    TotalSetsOfSessions(keys, rows);
    TotalSetsSort(Groups(rows));
  }

  /** Facts every accepted row satisfies, whatever the line held. */
  lemma {:induction false} AcceptedRowsShape(dataLines: seq<string>, width: nat, c: Columns)
    requires InRange(c, width) && c.date.Some? && c.exercise.Some?
    ensures forall i :: 0 <= i < |AcceptedRows(dataLines, width, c)| ==>
      var r := AcceptedRows(dataLines, width, c)[i];
      ' ' !in r.dateKey && r.workoutSet.setType == Normal &&
      (c.title.None? ==> r.title == DefaultTitle) && (c.rpe.None? ==> r.workoutSet.rpe.None?)
  {
    if dataLines != [] {
      AcceptedRowsShape(dataLines[..|dataLines| - 1], width, c);
    }
  }

  /** Every set filed under `d` is the set of a row dated `d`. */
  lemma {:induction false} SetsOnFromRows(rows: seq<Row>, d: string, j: nat)
    requires j < |SetsOn(rows, d)|
    ensures exists i :: 0 <= i < |rows| && rows[i].dateKey == d && rows[i].workoutSet == SetsOn(rows, d)[j]
  {
    var init, last := rows[..|rows| - 1], rows[|rows| - 1];
    if j < |SetsOn(init, d)| {
      SetsOnFromRows(init, d, j);
      var i :| 0 <= i < |init| && init[i].dateKey == d && init[i].workoutSet == SetsOn(init, d)[j];
      assert rows[i] == init[i];
    } else {
      assert rows[|rows| - 1] == last;
    }
  }

  /**
   * An export whose header names neither Hevy's nor Strong's columns gives
   * sessions titled "Entrenamiento" whose sets carry no RPE; every set is tagged normal
   * and every session date is free of blanks.
   */
  lemma HistoryShape(text: string, s: WorkoutSession)
    requires s in WorkoutHistory(text)
    ensures ' ' !in s.date
    ensures forall j :: 0 <= j < |s.sets| ==> s.sets[j].setType == Normal
    ensures var lines := Lines(text);
      |lines| >= 2 && DetectSchema(CsvFields(ToLower(lines[0]))) == GenericSchema ==>
        s.title == DefaultTitle && forall j :: 0 <= j < |s.sets| ==> s.sets[j].rpe.None?
  {
    var rows := HistoryRows(text);
    HistoryIsGrouping(text, s);
    var lines := Lines(text);
    if |lines| >= 2 {
      var headers := CsvFields(ToLower(lines[0]));
      var c := MapColumns(headers);
      if c.date.Some? && c.exercise.Some? {
        AcceptedRowsShape(lines[1..], |headers|, c);
      }
    }
    var i :| 0 <= i < |rows| && rows[i].dateKey == s.date;
    forall j | 0 <= j < |s.sets|
      ensures exists i :: 0 <= i < |rows| && rows[i].dateKey == s.date && rows[i].workoutSet == s.sets[j]
    {
      SetsOnFromRows(rows, s.date, j);
    }
    var f := FirstIndex(DateKeys(rows), s.date).value;
    assert s.title == rows[f].title;
  }

  // ---------------------------------------------------------------------------
  // The digest sent to the analysis service
  // ---------------------------------------------------------------------------

  const DigestHeader := "HISTORIAL DE ENTRENAMIENTO (Últimas sesiones):\n"

  /** How many sessions the digest covers. */
  const DigestLimit := 5

  /** `${set.rpe ? … : ''}`: the RPE is printed only when present, a number and not zero. */
  predicate RpeShown(rpe: Option<Number>) {
    rpe.Some? && rpe.value.Truthy()
  }

  /** `${weight}kg x ${reps}` followed by ` @RPE${rpe}` when the RPE is shown. */
  function SetText(s: WorkoutSet): string {
    NatToString(s.weight) + "kg x " + NatToString(s.reps) +
    (if RpeShown(s.rpe) then " @RPE" + NumberText(s.rpe.value) else "")
  }

  function Exercises(sets: seq<WorkoutSet>): seq<string> {
    seq(|sets|, i requires 0 <= i < |sets| => sets[i].exercise)
  }

  /** The texts of the sets of exercise `name`, in order. */
  function SetTextsOf(sets: seq<WorkoutSet>, name: string): seq<string> {
    if sets == [] then []
    else
      var last := sets[|sets| - 1];
      SetTextsOf(sets[..|sets| - 1], name) + (if last.exercise == name then [SetText(last)] else [])
  }

  /** The exercise dictionary the digest builds for one session. */
  ghost function TextsMap(sets: seq<WorkoutSet>): map<string, seq<string>> {
    map n | n in Exercises(sets) :: SetTextsOf(sets, n)
  }

  function ExerciseLine(name: string, texts: seq<string>): string {
    "- " + name + ": " + Join(texts, ", ") + "\n"
  }

  /** One line per exercise, in order of first appearance. */
  function ExerciseLines(sets: seq<WorkoutSet>, names: seq<string>): string {
    Concat(seq(|names|, k requires 0 <= k < |names| => ExerciseLine(names[k], SetTextsOf(sets, names[k]))))
  }

  /** The heading line of a session's block: its date and its title. */
  function SessionHeading(s: WorkoutSession): string {
    "\nFECHA: " + s.date + " | TÍTULO: " + s.title + "\n"
  }

  /** The block of one session: its heading, then its exercise lines. */
  function SessionBlock(s: WorkoutSession): string {
    SessionHeading(s) + ExerciseLines(s.sets, Distinct(Exercises(s.sets)))
  }

  /** The first (newest) sessions the digest covers. */
  function Recent(sessions: seq<WorkoutSession>): (r: seq<WorkoutSession>)
    ensures |r| <= DigestLimit && |r| <= |sessions| && r == sessions[..|r|]
    ensures |r| == DigestLimit || r == sessions
  {
    if |sessions| <= DigestLimit then sessions else sessions[..DigestLimit]
  }

  function Blocks(sessions: seq<WorkoutSession>): seq<string> {
    seq(|sessions|, i requires 0 <= i < |sessions| => SessionBlock(sessions[i]))
  }

  /** `formatWorkoutsForAI`: the header, then the blocks of the five newest sessions. */
  function WorkoutsDigest(sessions: seq<WorkoutSession>): string {
    DigestHeader + Concat(Blocks(Recent(sessions)))
  }

  /** `formatWorkoutsForAI`: append one block per recent session. */
  method FormatWorkoutsForAI(sessions: seq<WorkoutSession>) returns (output: string)
    ensures output == WorkoutsDigest(sessions)
  {
    var recent := Recent(sessions);
    // The blocks are gathered apart and put after the header at the end, which
    // yields the same text as appending each block to the header in turn.
    var blocks := "";
    for i := 0 to |recent|
      invariant blocks == Concat(Blocks(recent[..i]))
    {
      var block := FormatSession(recent[i]);
      BlocksSnoc(recent, i);
      blocks := blocks + block;
    }
    assert recent[..|recent|] == recent;
    output := DigestHeader + blocks;
  }

  lemma BlocksSnoc(sessions: seq<WorkoutSession>, i: nat)
    requires i < |sessions|
    ensures Concat(Blocks(sessions[..i + 1])) == Concat(Blocks(sessions[..i])) + SessionBlock(sessions[i])
  {
    assert Blocks(sessions[..i + 1]) == Blocks(sessions[..i]) + [SessionBlock(sessions[i])];
  }

  /** The body of the `forEach` over sessions: the heading, then one line per exercise. */
  method FormatSession(session: WorkoutSession) returns (block: string)
    ensures block == SessionBlock(session)
  {
    block := SessionHeading(session);
    var exerciseMap, names := GroupSetTexts(session.sets);
    for k := 0 to |names|
      invariant block == SessionHeading(session) + ExerciseLines(session.sets, names[..k])
    {
      var line := "- " + names[k] + ": " + Join(exerciseMap[names[k]], ", ") + "\n";
      assert line == ExerciseLine(names[k], SetTextsOf(session.sets, names[k]));
      AppendExerciseLine(session, names, k, block);
      block := block + line;
    }
    assert names[..|names|] == names;
  }

  lemma AppendExerciseLine(session: WorkoutSession, names: seq<string>, k: nat, block: string)
    requires k < |names| && block == SessionHeading(session) + ExerciseLines(session.sets, names[..k])
    ensures block + ExerciseLine(names[k], SetTextsOf(session.sets, names[k])) ==
            SessionHeading(session) + ExerciseLines(session.sets, names[..k + 1])
  {
    ExerciseLinesSnoc(session.sets, names, k);
  }

  lemma ExerciseLinesSnoc(sets: seq<WorkoutSet>, names: seq<string>, k: nat)
    requires k < |names|
    ensures ExerciseLines(sets, names[..k + 1]) ==
            ExerciseLines(sets, names[..k]) + ExerciseLine(names[k], SetTextsOf(sets, names[k]))
  {
    var lines := seq(|names[..k + 1]|, j requires 0 <= j < k + 1 => ExerciseLine(names[..k + 1][j], SetTextsOf(sets, names[..k + 1][j])));
    assert lines[..k] == seq(|names[..k]|, j requires 0 <= j < k => ExerciseLine(names[..k][j], SetTextsOf(sets, names[..k][j])));
  }

  /** The inner `forEach`: file each set's text under its exercise, creating the entry on first sight. */
  method GroupSetTexts(sets: seq<WorkoutSet>) returns (exerciseMap: map<string, seq<string>>, names: seq<string>)
    ensures names == Distinct(Exercises(sets))
    ensures forall k :: 0 <= k < |names| ==> names[k] in exerciseMap && exerciseMap[names[k]] == SetTextsOf(sets, names[k])
  {
    exerciseMap, names := map[], [];
    for j := 0 to |sets|
      invariant names == Distinct(Exercises(sets[..j])) && exerciseMap == TextsMap(sets[..j])
    {
      NamesSnoc(sets, j);
      TextsMapSnoc(sets, j);
      var name := sets[j].exercise;
      if name !in exerciseMap {
        exerciseMap := exerciseMap[name := []];
        names := names + [name];
      }
      exerciseMap := exerciseMap[name := exerciseMap[name] + [SetText(sets[j])]];
    }
    assert sets[..|sets|] == sets;
    forall k | 0 <= k < |names|
      ensures names[k] in exerciseMap
    {
      DistinctMembers(Exercises(sets), names[k]);
    }
  }

  /** One more set lists its exercise when the exercise is new. */
  lemma NamesSnoc(sets: seq<WorkoutSet>, j: nat)
    requires j < |sets|
    ensures var name := sets[j].exercise;
      (name in Distinct(Exercises(sets[..j])) <==> name in Exercises(sets[..j])) &&
      Distinct(Exercises(sets[..j + 1])) ==
        if name in Exercises(sets[..j]) then Distinct(Exercises(sets[..j])) else Distinct(Exercises(sets[..j])) + [name]
  {
    var pre, name := sets[..j], sets[j].exercise;
    assert Exercises(sets[..j + 1]) == Exercises(pre) + [name];
    DistinctMembers(Exercises(pre), name);
    DistinctSnoc(Exercises(pre), name);
  }

  /** One more set extends only its own exercise's entry. */
  lemma TextsMapSnoc(sets: seq<WorkoutSet>, j: nat)
    requires j < |sets|
    ensures var name := sets[j].exercise;
      TextsMap(sets[..j + 1]) ==
        TextsMap(sets[..j])[name := (if name in TextsMap(sets[..j]) then TextsMap(sets[..j])[name] else []) + [SetText(sets[j])]]
  {
    var pre, post, name := sets[..j], sets[..j + 1], sets[j].exercise;
    assert post == pre + [sets[j]] && post[..j] == pre;
    assert Exercises(post) == Exercises(pre) + [name];
    if name !in Exercises(pre) {
      NoTextsWithoutExercise(pre, name);
    }
    var m, m' := TextsMap(pre), TextsMap(post);
    forall n | n in m' && n != name
      ensures n in m && m'[n] == m[n]
    {
    }
  }

  lemma {:induction false} NoTextsWithoutExercise(sets: seq<WorkoutSet>, name: string)
    requires name !in Exercises(sets)
    ensures SetTextsOf(sets, name) == []
  {
    if sets != [] {
      var init := sets[..|sets| - 1];
      assert forall i :: 0 <= i < |init| ==> Exercises(init)[i] == Exercises(sets)[i];
      assert Exercises(sets)[|sets| - 1] == sets[|sets| - 1].exercise;
      NoTextsWithoutExercise(init, name);
    }
  }

  /** A set's text carries an RPE mark exactly when the RPE is present, a number and not zero. */
  lemma SetTextMarksRpe(s: WorkoutSet)
    ensures '@' in SetText(s) <==> RpeShown(s.rpe)
  {
    NoMarkInDigits(NatToString(s.weight));
    NoMarkInDigits(NatToString(s.reps));
    assert '@' !in "kg x ";
    if RpeShown(s.rpe) {
      assert (" @RPE" + NumberText(s.rpe.value))[1] == '@';
    }
  }

  lemma NoMarkInDigits(d: string)
    requires AllDigits(d)
    ensures '@' !in d
  {
  }

  /** Reading a set's text back as a number gives its weight: the text starts with the weight. */
  lemma SetTextStartsWithWeight(s: WorkoutSet)
    ensures ParseFloat(SetText(s)) == Num(s.weight)
  {
    var rest := "kg x " + NatToString(s.reps) + (if RpeShown(s.rpe) then " @RPE" + NumberText(s.rpe.value) else "");
    assert SetText(s) == NatToString(s.weight) + rest;
    ParseFloatOfNatToString(s.weight, rest);
  }

  /** Only the five newest sessions reach the digest: older ones can be anything. */
  lemma DigestIgnoresOlder(sessions: seq<WorkoutSession>, older: seq<WorkoutSession>)
    requires |sessions| >= DigestLimit
    ensures WorkoutsDigest(sessions + older) == WorkoutsDigest(sessions)
  {
    assert (sessions + older)[..DigestLimit] == sessions[..DigestLimit];
  }

  /** The number of set texts listed under the exercise names `names`. */
  function TextCount(names: seq<string>, sets: seq<WorkoutSet>): nat {
    if names == [] then 0 else |SetTextsOf(sets, names[0])| + TextCount(names[1..], sets)
  }

  lemma {:induction false} TextCountSnoc(names: seq<string>, sets: seq<WorkoutSet>, s: WorkoutSet)
    ensures TextCount(names, sets + [s]) == TextCount(names, sets) + multiset(names)[s.exercise]
  {
    if names != [] {
      TextCountSnoc(names[1..], sets, s);
      assert (sets + [s])[..|sets|] == sets;
      assert names == [names[0]] + names[1..];
    }
  }

  lemma {:induction false} TextCountNone(names: seq<string>)
    ensures TextCount(names, []) == 0
  {
    if names != [] {
      TextCountNone(names[1..]);
    }
  }

  lemma {:induction false} TextCountAll(names: seq<string>, sets: seq<WorkoutSet>)
    requires forall i :: 0 <= i < |sets| ==> multiset(names)[sets[i].exercise] == 1
    ensures TextCount(names, sets) == |sets|
  {
    if sets == [] {
      TextCountNone(names);
    } else {
      var init, s := sets[..|sets| - 1], sets[|sets| - 1];
      TextCountAll(names, init);
      TextCountSnoc(names, init, s);
      assert sets == init + [s];
    }
  }

  /** Each exercise gets one line, and every set of the session is listed on exactly one of them. */
  lemma SessionBlockListsEverySet(session: WorkoutSession)
    ensures var names := Distinct(Exercises(session.sets));
      (forall i :: 0 <= i < |session.sets| ==> session.sets[i].exercise in names) &&
      (forall k, l :: 0 <= k < l < |names| ==> names[k] != names[l]) &&
      TextCount(names, session.sets) == |session.sets|
  {
    var sets := session.sets;
    var names := Distinct(Exercises(sets));
    DistinctNoDuplicates(Exercises(sets));
    forall i | 0 <= i < |sets|
      ensures sets[i].exercise in names && multiset(names)[sets[i].exercise] == 1
    {
      assert Exercises(sets)[i] == sets[i].exercise;
      DistinctMembers(Exercises(sets), sets[i].exercise);
      DistinctMultiplicity(Exercises(sets), sets[i].exercise);
    }
    TextCountAll(names, sets);
  }

  /** The day number of a `year-month-day` key made of digit runs. */
  lemma TimeOfParts(y: string, m: string, d: string)
    requires y != [] && m != [] && d != [] && AllDigits(y) && AllDigits(m) && AllDigits(d)
    ensures TimeOf(y + "-" + m + "-" + d) ==
      if 1 <= DigitsValue(m) <= 12 && 1 <= DigitsValue(d) <= 31
      then DayNumber(DigitsValue(y), DigitsValue(m), DigitsValue(d)) else 0
  {
    NoDashInDigits(y);
    NoDashInDigits(m);
    NoDashInDigits(d);
    assert y + "-" + m + "-" + d == y + ['-'] + (m + ['-'] + d);
    SplitOnAfter(y, '-', m + ['-'] + d);
    SplitOnAfter(m, '-', d);
    SplitOnAbsent(d, '-');
  }

  lemma NoDashInDigits(d: string)
    requires AllDigits(d)
    ensures '-' !in d
  {
  }

  /**
   * Keys are ordered as calendar dates, not as text: "2024-10-01" is newer than
   * "2024-9-30" although it sorts first as a string.
   */
  lemma CalendarOrder(date1: string, date2: string)
    requires var p, q := SplitOn(date1, '-'), SplitOn(date2, '-');
      |p| == 3 && p[0] != [] && p[1] != [] && p[2] != [] && AllDigits(p[0]) && AllDigits(p[1]) && AllDigits(p[2]) &&
      |q| == 3 && q[0] != [] && q[1] != [] && q[2] != [] && AllDigits(q[0]) && AllDigits(q[1]) && AllDigits(q[2]) &&
      1 <= DigitsValue(p[1]) <= 12 && 1 <= DigitsValue(p[2]) <= 31 &&
      1 <= DigitsValue(q[1]) <= 12 && 1 <= DigitsValue(q[2]) <= 31
    ensures var p, q := SplitOn(date1, '-'), SplitOn(date2, '-');
      var a, b := DigitsValue(p[0]), DigitsValue(q[0]);
      var ma, mb := DigitsValue(p[1]), DigitsValue(q[1]);
      var da, db := DigitsValue(p[2]), DigitsValue(q[2]);
      TimeOf(date1) > TimeOf(date2) <==> a > b || (a == b && (ma > mb || (ma == mb && da > db)))
  {
    var p, q := SplitOn(date1, '-'), SplitOn(date2, '-');
    DayNumberOrder(DigitsValue(p[0]), DigitsValue(p[1]), DigitsValue(p[2]),
                   DigitsValue(q[0]), DigitsValue(q[1]), DigitsValue(q[2]));
  }

  /** Day numbers compare like (year, month, day) triples when month and day are in range. */
  lemma DayNumberOrder(a: nat, ma: nat, da: nat, b: nat, mb: nat, db: nat)
    requires 1 <= ma <= 12 && 1 <= da <= 31 && 1 <= mb <= 12 && 1 <= db <= 31
    ensures DayNumber(a, ma, da) > DayNumber(b, mb, db) <==>
      a > b || (a == b && (ma > mb || (ma == mb && da > db)))
  {
    if a > b {
      assert a * 10000 >= b * 10000 + 10000;
    } else if a < b {
      assert b * 10000 >= a * 10000 + 10000;
    }
  }
}
