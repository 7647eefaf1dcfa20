/**
 * The patient CSV import: the line-and-comma parser, the mapping of columns onto patient fields,
 * the per-row validation and the import guard.
 */
module CsvImport {
  import opened Wrappers
  import opened Text
  import opened Dict
  import opened Entities
  import opened AppContext

  /** A parsed CSV row: lower-cased header to cell text. */
  type Row = Dict<string>

  // ---------------------------------------------------------------- parseCSV

  /** `.replace(/^"|"$/g, '')`: one leading and then one trailing double quote removed. */
  function StripQuotes(s: string): (r: string)
    ensures |s| - 2 <= |r| <= |s|
  {
    var a := if s != [] && s[0] == '"' then s[1..] else s;
    if a != [] && a[|a| - 1] == '"' then a[..|a| - 1] else a
  }

  /** A header or cell after `.trim()` and quote stripping. */
  function CleanCell(v: string): string {
    StripQuotes(Trim(v))
  }

  /** `line.split(',').map(...)`: commas inside quotes are not respected, so k commas give k + 1 cells. */
  function Cells(line: string): (r: seq<string>)
    ensures |r| == Count(line, ',') + 1
  {
    var parts := Split(line, ',');
    seq(|parts|, k requires 0 <= k < |parts| => CleanCell(parts[k]))
  }

  /** `lines.filter(line => line.trim())`: the lines that are not blank (see `TrimEmptyIffBlank`). */
  function NonBlank(lines: seq<string>): seq<string> {
    if lines == [] then []
    else
      var rest := NonBlank(lines[1..]);
      if Blank(lines[0]) then rest else [lines[0]] + rest
  }

  /**
   * The filter keeps exactly the non-blank lines, each as often as it occurs, and filtering a
   * longer text filters each part, so the kept lines stay in their order.
   */
  lemma {:induction false} NonBlankFilters(lines: seq<string>)
    ensures |NonBlank(lines)| <= |lines|
    ensures forall l :: l in NonBlank(lines) ==> l in lines && !Blank(l)
    ensures forall l :: l in lines && !Blank(l) ==> l in NonBlank(lines)
    ensures forall l :: multiset(NonBlank(lines))[l] == if Blank(l) then 0 else multiset(lines)[l]
    ensures forall more :: NonBlank(lines + more) == NonBlank(lines) + NonBlank(more)
  {
    if lines != [] {
      NonBlankFilters(lines[1..]);
      assert forall l :: l in lines ==> l == lines[0] || l in lines[1..];
      assert lines == [lines[0]] + lines[1..];
      assert multiset(lines) == multiset{lines[0]} + multiset(lines[1..]);
    }
    forall more: seq<string> ensures NonBlank(lines + more) == NonBlank(lines) + NonBlank(more) {
      NonBlankConcat(lines, more);
    }
  }

  lemma {:induction false} NonBlankConcat(lines: seq<string>, more: seq<string>)
    ensures NonBlank(lines + more) == NonBlank(lines) + NonBlank(more)
  {
    if lines == [] {
      assert lines + more == more;
    } else {
      assert (lines + more)[0] == lines[0];
      assert (lines + more)[1..] == lines[1..] + more;
      NonBlankConcat(lines[1..], more);
    }
  }

  function NonBlankLines(text: string): seq<string> {
    NonBlank(Split(text, '\n'))
  }

  /** `values[index] || ''`: a missing cell reads as "". */
  function Cell(values: seq<string>, k: nat): string {
    if k < |values| then values[k] else ""
  }

  function LowerAll(headers: seq<string>): (r: seq<string>)
    ensures |r| == |headers| && forall k :: 0 <= k < |headers| ==> r[k] == Lower(headers[k])
  {
    seq(|headers|, k requires 0 <= k < |headers| => Lower(headers[k]))
  }

  /** The distinct elements of `xs`, each at its first occurrence. */
  function Firsts(xs: seq<string>): (r: seq<string>)
    ensures forall x :: x in r <==> x in xs
  {
    if xs == [] then []
    else
      var init := Firsts(xs[..|xs| - 1]);
      assert forall x :: x in xs ==> x in xs[..|xs| - 1] || x == xs[|xs| - 1];
      if xs[|xs| - 1] in init then init else init + [xs[|xs| - 1]]
  }

  /** The row object `headers.forEach` builds: `row[header.toLowerCase()] = values[index] || ''`. */
  function RowOf(headers: seq<string>, values: seq<string>): (r: Row)
    ensures Keys(r) == Firsts(LowerAll(headers))
  {
    if headers == [] then []
    else
      var n := |headers| - 1;
      assert LowerAll(headers[..n]) == LowerAll(headers)[..n];
      Put(RowOf(headers[..n], values), Lower(headers[n]), Cell(values, n))
  }

  /** `values.some(v => v)`. */
  predicate Kept(values: seq<string>) {
    exists k :: 0 <= k < |values| && values[k] != ""
  }

  /** The row one data line contributes: none when all its cells are empty. */
  function LineRow(headers: seq<string>, line: string): (r: seq<Row>)
    ensures |r| <= 1
  {
    var values := Cells(line);
    if Kept(values) then [RowOf(headers, values)] else []
  }

  /** The rows built from the data lines, in order. */
  function RowsOf(headers: seq<string>, lines: seq<string>): seq<Row> {
    if lines == [] then []
    else
      var n := |lines| - 1;
      RowsOf(headers, lines[..n]) + LineRow(headers, lines[n])
  }

  /** What `parseCSV` returns: nothing without a non-blank line, else the rows under the first line's headers. */
  function Parsed(text: string): (rows: seq<Row>)
    ensures NonBlankLines(text) == [] ==> rows == []
    ensures NonBlankLines(text) != [] ==> |rows| <= |NonBlankLines(text)| - 1
  {
    var lines := NonBlankLines(text);
    if lines == [] then []
    else
      RowsOfBounds(Cells(lines[0]), lines[1..]);
      RowsOf(Cells(lines[0]), lines[1..])
  }

  /** The body of the row loop of `parseCSV`: clean the cells, skip an empty row, else build it. */
  method ParseLine(headers: seq<string>, line: string) returns (r: seq<Row>)
    ensures r == LineRow(headers, line)
  {
    var values := Cells(line);
    if exists k :: 0 <= k < |values| && values[k] != "" {
      var row := [];
      for k := 0 to |headers|
        invariant row == RowOf(headers[..k], values)
      {
        RowOfStep(headers, values, k);
        row := Put(row, Lower(headers[k]), Cell(values, k));
      }
      assert headers[..|headers|] == headers;
      r := [row];
    } else {
      r := [];
    }
  }

  /** One more data line adds its own row, if any, at the end. */
  lemma RowsOfPrefix(headers: seq<string>, lines: seq<string>, j: nat)
    requires j < |lines|
    ensures RowsOf(headers, lines[..j + 1]) == RowsOf(headers, lines[..j]) + LineRow(headers, lines[j])
  {
    assert lines[..j + 1][..j] == lines[..j];
  }

  lemma RowOfStep(headers: seq<string>, values: seq<string>, k: nat)
    requires k < |headers|
    ensures RowOf(headers[..k + 1], values) == Put(RowOf(headers[..k], values), Lower(headers[k]), Cell(values, k))
  {
    assert headers[..k + 1][..k] == headers[..k];
  }

  /** `parseCSV`. */
  method ParseCsv(text: string) returns (rows: seq<Row>)
    ensures rows == Parsed(text)
  {
    var lines := NonBlankLines(text);
    if |lines| == 0 {
      return [];
    }
    var headers := Cells(lines[0]);
    rows := ParseDataLines(headers, lines);
  }

  /** The `for (let i = 1; ...)` loop of `parseCSV` over the lines after the header line. */
  method ParseDataLines(headers: seq<string>, lines: seq<string>) returns (rows: seq<Row>)
    requires |lines| >= 1
    ensures rows == RowsOf(headers, lines[1..])
  {
    var data := lines[1..];
    rows := [];
    for j := 0 to |data|
      invariant rows == RowsOf(headers, data[..j])
    {
      RowsOfPrefix(headers, data, j);
      var r := ParseLine(headers, data[j]);
      rows := rows + r;
    }
    assert data[..|data|] == data;
  }

  // ---------------------------------------------------------------- mapToPatient

  /** The `fieldMap` of `mapToPatient`: each patient field with the header names that select it, in order. */
  const FieldMap: seq<(string, seq<string>)> := [
    ("name", ["name", "full name", "patient name"]),
    ("email", ["email", "email address"]),
    ("phone", ["phone", "phone number", "telephone"]),
    ("dob", ["dob", "date of birth", "birthdate", "birth date"]),
    ("insurance", ["insurance", "insurance provider", "insurance company"]),
    ("insuranceid", ["insurance id", "insuranceid", "insurance number", "member id"]),
    ("status", ["status", "patient status"])]

  /** `lowerKey.includes(name) || name.includes(lowerKey)`. */
  predicate NameMatches(key: string, name: string) {
    Contains(key, name) || Contains(name, key)
  }

  /** `possibleNames.some(name => ...)`. */
  predicate GroupMatches(key: string, names: seq<string>) {
    names != [] && (NameMatches(key, names[0]) || GroupMatches(key, names[1..]))
  }

  /** The first entry of a field table, from `from` on, whose names match `key`; `|table|` when none does. */
  function FirstMatch(table: seq<(string, seq<string>)>, key: string, from: nat): (j: nat)
    requires from <= |table|
    ensures from <= j <= |table|
    decreases |table| - from
  {
    if from == |table| || GroupMatches(key, table[from].1) then from else FirstMatch(table, key, from + 1)
  }

  /** The first entry of `FieldMap`, from `from` on, whose names match `key`; `|FieldMap|` when none does. */
  function FirstGroup(key: string, from: nat): (j: nat)
    requires from <= |FieldMap|
    ensures from <= j <= |FieldMap|
  {
    FirstMatch(FieldMap, key, from)
  }

  lemma {:induction false} FirstMatchIsFirst(table: seq<(string, seq<string>)>, key: string, from: nat)
    requires from <= |table|
    ensures var j := FirstMatch(table, key, from);
      && (j < |table| ==> GroupMatches(key, table[j].1))
      && (forall i :: from <= i < j ==> !GroupMatches(key, table[i].1))
    decreases |table| - from
  {
    if from < |table| && !GroupMatches(key, table[from].1) {
      FirstMatchIsFirst(table, key, from + 1);
    }
  }

  /** The group found matches the key, and no group before it does. */
  lemma FirstGroupIsFirst(key: string, from: nat)
    requires from <= |FieldMap|
    ensures var j := FirstGroup(key, from);
      && (j < |FieldMap| ==> GroupMatches(key, FieldMap[j].1))
      && (forall i :: from <= i < j ==> !GroupMatches(key, FieldMap[i].1))
  {
    FirstMatchIsFirst(FieldMap, key, from);
  }

  /** The patient `mapToPatient` starts from. */
  const DefaultPatient: Record := [
    ("name", Str("")), ("email", Str("")), ("phone", Str("")), ("dob", Str("")),
    ("insurance", Str("")), ("insuranceId", Str("")), ("status", Str("Consultation")),
    ("previousConsultations", Num(0.0))]

  /** One column of the row: written to the first matching field, or dropped. */
  function MapColumn(patient: Record, key: string, value: string): Record {
    var j := FirstGroup(Lower(key), 0);
    if j < |FieldMap| then Put(patient, FieldMap[j].0, Str(value)) else patient
  }

  /**
   * The patient built from the columns in row order. `Object.keys` would list integer-like keys
   * first, but such a key matches no field (`DigitKeysMatchNothing`), so the order is the row's.
   */
  function MappedPatient(row: Row): (patient: Record)
    ensures forall key :: key in Keys(DefaultPatient) ==> key in Keys(patient)
  {
    if row == [] then DefaultPatient
    else
      var n := |row| - 1;
      MapColumn(MappedPatient(row[..n]), row[n].0, row[n].1)
  }

  lemma MappedStep(row: Row, n: nat)
    requires n < |row|
    ensures MappedPatient(row[..n + 1]) == MapColumn(MappedPatient(row[..n]), row[n].0, row[n].1)
  {
    assert row[..n + 1][..n] == row[..n];
  }

  /** The inner `for ... of Object.entries(fieldMap)` scan of `mapToPatient`, which stops at the first match. */
  method FindGroup(lowerKey: string) returns (j: nat)
    ensures j == FirstGroup(lowerKey, 0)
  {
    j := 0;
    while j < |FieldMap|
      invariant 0 <= j <= |FieldMap|
      invariant FirstGroup(lowerKey, 0) == FirstGroup(lowerKey, j)
    {
      var possibleNames := FieldMap[j].1;
      if GroupMatches(lowerKey, possibleNames) {
        return;
      }
      j := j + 1;
    }
  }

  /** `mapToPatient`: each column, in row order, is written to the first field group it matches. */
  method MapToPatient(row: Row) returns (patient: Record)
    ensures patient == MappedPatient(row)
  {
    patient := DefaultPatient;
    for n := 0 to |row|
      invariant patient == MappedPatient(row[..n])
    {
      MappedStep(row, n);
      var j := FindGroup(Lower(row[n].0));
      if j < |FieldMap| {
        patient := Put(patient, FieldMap[j].0, Str(row[n].1));
      }
    }
    assert row[..|row|] == row;
  }

  // ---------------------------------------------------------------- validatePatient

  /**
   * The email pattern `^[^\s@]+@[^\s@]+\.[^\s@]+$`: an `@` at i and a dot at j splitting the text
   * into three non-empty parts, and no white space and no other `@` anywhere.
   */
  ghost predicate MatchesEmailPattern(s: string) {
    exists i, j :: 1 <= i && i + 2 <= j < |s| - 1 && s[i] == '@' && s[j] == '.'
      && forall k :: 0 <= k < |s| && k != i ==> !IsSpace(s[k]) && s[k] != '@'
  }

  /** The pattern test, computed: one `@`, not first, then a dot with text on both sides. */
  function EmailOk(s: string): (r: bool)
    ensures r <==> MatchesEmailPattern(s)
  {
    if '@' !in s then false
    else
      var i := IndexOf(s, '@');
      var r := 1 <= i && '@' !in s[i + 1..] && (forall k :: 0 <= k < |s| ==> !IsSpace(s[k]))
        && exists j :: i + 2 <= j < |s| - 1 && s[j] == '.';
      assert r ==> MatchesEmailPattern(s) by {
        if r {
          var j :| i + 2 <= j < |s| - 1 && s[j] == '.';
          forall k | 0 <= k < |s| && k != i ensures !IsSpace(s[k]) && s[k] != '@' {
            if k < i { assert s[k] == s[..i][k]; } else { assert s[k] == s[i + 1..][k - i - 1]; }
          }
        }
      }
      assert MatchesEmailPattern(s) ==> r by {
        if MatchesEmailPattern(s) {
          var i', j :| 1 <= i' && i' + 2 <= j < |s| - 1 && s[i'] == '@' && s[j] == '.'
            && forall k :: 0 <= k < |s| && k != i' ==> !IsSpace(s[k]) && s[k] != '@';
          assert i == i';
          var t := s[i + 1..];
          forall k | 0 <= k < |t| ensures t[k] != '@' {
            assert t[k] == s[i + 1 + k];
          }
          assert forall k :: 0 <= k < |s| ==> !IsSpace(s[k]);
        }
      }
      r
  }

  /** What `validatePatient` can object to in one row. */
  datatype Issue = NameRequired | EmailRequired | InvalidEmail

  /** The issues of one patient, in the order they are pushed: the name first, then one about the email. */
  function Issues(patient: Record): (r: seq<Issue>)
    ensures |r| <= 2
  {
    var name := TextField(patient, "name");
    var email := TextField(patient, "email");
    (if Blank(name) then [NameRequired] else [])
    + (if Blank(email) then [EmailRequired] else if !EmailOk(email) then [InvalidEmail] else [])
  }

  /**
   * What each issue means: a blank name; a blank email; a non-blank email that fails the pattern.
   * A row has none exactly when its name is not blank and its email matches.
   */
  lemma IssuesMeaning(patient: Record)
    ensures var r := Issues(patient);
      var name := TextField(patient, "name");
      var email := TextField(patient, "email");
      && (NameRequired in r <==> Blank(name))
      && (EmailRequired in r <==> Blank(email))
      && (InvalidEmail in r <==> !Blank(email) && !MatchesEmailPattern(email))
      && (r == [] <==> !Blank(name) && MatchesEmailPattern(email))
  {
    BlankIsNoEmail(TextField(patient, "email"));
  }

  /** A blank email cannot match: the pattern's first character is not white space. */
  lemma BlankIsNoEmail(email: string)
    ensures Blank(email) ==> !MatchesEmailPattern(email)
  {
    if Blank(email) && |email| > 0 {
      assert IsSpace(email[0]);
    }
  }

  function IssueText(issue: Issue): string {
    match issue
    case NameRequired => "Name is required"
    case EmailRequired => "Email is required"
    case InvalidEmail => "Invalid email format"
  }

  /** The message of an issue in row `index + 1`. */
  function RowMessage(index: nat, issue: Issue): string {
    "Row " + NatToString(index + 1) + ": " + IssueText(issue)
  }

  /** `validatePatient(patient, index)`: one message per issue, in order. */
  function PatientErrors(patient: Record, index: nat): (errors: seq<string>)
    ensures |errors| == |Issues(patient)| <= 2
  {
    var issues := Issues(patient);
    seq(|issues|, k requires 0 <= k < |issues| => RowMessage(index, issues[k]))
  }

  /** The row's messages are exactly the messages of its issues. */
  lemma PatientErrorsMessages(patient: Record, index: nat)
    ensures forall issue :: RowMessage(index, issue) in PatientErrors(patient, index) <==> issue in Issues(patient)
  {
    var issues := Issues(patient);
    var errors := PatientErrors(patient, index);
    forall issue | RowMessage(index, issue) in errors ensures issue in issues {
      var k :| 0 <= k < |issues| && errors[k] == RowMessage(index, issue);
      MessagesDiffer(index, issue, issues[k]);
    }
    assert forall k :: 0 <= k < |issues| ==> errors[k] == RowMessage(index, issues[k]);
  }

  /** Different issues of one row give different messages: they differ right after "Row n: ". */
  lemma MessagesDiffer(index: nat, a: Issue, b: Issue)
    ensures RowMessage(index, a) == RowMessage(index, b) <==> a == b
  {
    var p := "Row " + NatToString(index + 1) + ": ";
    assert RowMessage(index, a)[|p|] == IssueText(a)[0];
    assert RowMessage(index, b)[|p|] == IssueText(b)[0];
  }

  /** The messages of each row, row by row. */
  function RowErrors(patients: seq<Record>): (r: seq<seq<string>>)
    ensures |r| == |patients|
    ensures forall k :: 0 <= k < |r| ==> |r[k]| <= 2 && (r[k] == [] <==> Issues(patients[k]) == [])
  {
    seq(|patients|, k requires 0 <= k < |patients| => PatientErrors(patients[k], k))
  }

  /** The parts concatenated in order. */
  function Flatten(parts: seq<seq<string>>): seq<string> {
    if parts == [] then [] else Flatten(parts[..|parts| - 1]) + parts[|parts| - 1]
  }

  lemma FlattenSnoc(parts: seq<seq<string>>, i: nat)
    requires i < |parts|
    ensures Flatten(parts[..i + 1]) == Flatten(parts[..i]) + parts[i]
  {
    assert parts[..i + 1][..i] == parts[..i];
  }

  /** Every message of the import, rows in order. */
  function AllErrors(patients: seq<Record>): seq<string> {
    Flatten(RowErrors(patients))
  }

  /** `csvRows.map(row => mapToPatient(row))`. */
  function Patients(rows: seq<Row>): (r: seq<Record>)
    ensures |r| == |rows|
  {
    seq(|rows|, k requires 0 <= k < |rows| => MappedPatient(rows[k]))
  }

  /** The `patients.forEach` loop collecting every row's messages. */
  method ValidateAll(patients: seq<Record>) returns (validationErrors: seq<string>)
    ensures validationErrors == AllErrors(patients)
  {
    validationErrors := [];
    for index := 0 to |patients|
      invariant validationErrors == Flatten(RowErrors(patients)[..index])
    {
      FlattenSnoc(RowErrors(patients), index);
      validationErrors := validationErrors + PatientErrors(patients[index], index);
    }
    assert RowErrors(patients)[..|patients|] == RowErrors(patients);
  }

  // ---------------------------------------------------------------- the component

  class Importer {
    const store: Store
    var preview: Option<seq<Record>>
    var errors: seq<string>

    constructor (store: Store)
      ensures this.store == store && preview == None && errors == []
    {
      this.store := store;
      preview := None;
      errors := [];
    }

    /**
     * `handleFileSelect` together with the reader's `onload`: a name without `.csv` is refused;
     * otherwise the text is parsed, mapped and validated.
     */
    method LoadFile(fileName: string, text: string)
      modifies this
      ensures !EndsWith(fileName, ".csv") ==> preview == old(preview) && errors == old(errors)
      ensures EndsWith(fileName, ".csv") && Parsed(text) == [] ==>
        preview == None && errors == ["CSV file is empty or invalid"]
      ensures EndsWith(fileName, ".csv") && Parsed(text) != [] ==>
        preview == Some(Patients(Parsed(text))) && errors == AllErrors(Patients(Parsed(text)))
    {
      if !EndsWith(fileName, ".csv") {
        return;
      }
      errors := [];
      preview := None;
      var csvRows := ParseCsv(text);
      if |csvRows| == 0 {
        errors := ["CSV file is empty or invalid"];
        return;
      }
      var patients := Patients(csvRows);
      var validationErrors := ValidateAll(patients);
      errors := validationErrors;
      preview := Some(patients);
    }

    /**
     * `handleImport`, with the answer to the confirmation dialog passed in: nothing without a
     * non-empty preview, nothing when there are errors and the user declines; otherwise the
     * preview is imported and the component reset.
     */
    method HandleImport(confirmed: bool, now: int)
      modifies this, store
      ensures (old(preview) == None || |old(preview).value| == 0 || (|old(errors)| > 0 && !confirmed)) ==>
        store.state == old(store.state) && preview == old(preview) && errors == old(errors)
      ensures !(old(preview) == None || |old(preview).value| == 0 || (|old(errors)| > 0 && !confirmed)) ==>
        store.state == Reduce(old(store.state), BulkImportPatients(old(preview).value, now))
        && preview == None && errors == []
    {
      if preview == None || |preview.value| == 0 {
        return;
      }
      if |errors| > 0 && !confirmed {
        return;
      }
      store.Dispatch(BulkImportPatients(preview.value, now));
      preview := None;
      errors := [];
    }
  }

  // ---------------------------------------------------------------- properties

  /** A text with no non-blank line parses to no rows; otherwise the rows number at most the data lines. */
  lemma ParsedBounds(text: string)
    ensures NonBlankLines(text) == [] ==> Parsed(text) == []
    ensures NonBlankLines(text) != [] ==> |Parsed(text)| <= |NonBlankLines(text)| - 1
    ensures forall l :: l in NonBlankLines(text) ==> !Blank(l)
  {
    var lines := NonBlankLines(text);
    NonBlankFilters(Split(text, '\n'));
    if lines != [] {
      RowsOfBounds(Cells(lines[0]), lines[1..]);
    }
  }

  /** One row per data line with a non-empty cell, and no row at all when every cell is empty. */
  lemma {:induction false} RowsOfBounds(headers: seq<string>, lines: seq<string>)
    ensures |RowsOf(headers, lines)| <= |lines|
    ensures (forall k :: 0 <= k < |lines| ==> !Kept(Cells(lines[k]))) ==> RowsOf(headers, lines) == []
    ensures (forall k :: 0 <= k < |lines| ==> Kept(Cells(lines[k]))) ==> |RowsOf(headers, lines)| == |lines|
  {
    if lines != [] {
      var n := |lines| - 1;
      assert RowsOf(headers, lines) == RowsOf(headers, lines[..n]) + LineRow(headers, lines[n]);
      RowsOfBounds(headers, lines[..n]);
      assert forall k :: 0 <= k < n ==> lines[..n][k] == lines[k];
      assert |LineRow(headers, lines[n])| == (if Kept(Cells(lines[n])) then 1 else 0);
    }
  }

  /** Every row carries one key per distinct lower-cased header, whatever its cells. */
  lemma RowKeys(text: string, r: Row)
    requires r in Parsed(text)
    ensures NonBlankLines(text) != [] && Keys(r) == Firsts(LowerAll(Cells(NonBlankLines(text)[0])))
  {
    var lines := NonBlankLines(text);
    RowsOfAreRows(Cells(lines[0]), lines[1..], r);
  }

  lemma {:induction false} RowsOfAreRows(headers: seq<string>, lines: seq<string>, r: Row)
    requires r in RowsOf(headers, lines)
    ensures exists v :: r == RowOf(headers, v)
  {
    var n := |lines| - 1;
    if r in RowsOf(headers, lines[..n]) {
      RowsOfAreRows(headers, lines[..n], r);
    } else {
      assert r in LineRow(headers, lines[n]);
      assert r == RowOf(headers, Cells(lines[n]));
    }
  }

  /** With distinct lower-cased headers, each header reads its own cell, and "" past the last cell. */
  lemma {:induction false} RowLookup(headers: seq<string>, values: seq<string>, k: nat)
    requires k < |headers|
    requires forall i, j :: 0 <= i < j < |headers| ==> Lower(headers[i]) != Lower(headers[j])
    ensures Get(RowOf(headers, values), Lower(headers[k])) == Some(Cell(values, k))
    ensures k >= |values| ==> Cell(values, k) == ""
  {
    var n := |headers| - 1;
    if k < n {
      RowLookup(headers[..n], values, k);
    }
  }

  /** Quoting a cell and stripping the quotes gives it back; an unquoted cell is left alone. */
  lemma QuoteRoundTrip(x: string)
    ensures StripQuotes("\"" + x + "\"") == x
    ensures (x == [] || (x[0] != '"' && x[|x| - 1] != '"')) ==> StripQuotes(x) == x
  {
    var s := "\"" + x + "\"";
    assert s[1..] == x + "\"";
    assert (x + "\"")[..|x|] == x;
  }

  /** No column can touch `previousConsultations`: it stays 0 for every row. */
  lemma {:induction false} PreviousConsultationsStayZero(row: Row)
    ensures Get(MappedPatient(row), "previousConsultations") == Some(Num(0.0))
  {
    if row != [] {
      var n := |row| - 1;
      PreviousConsultationsStayZero(row[..n]);
      var prev := MappedPatient(row[..n]);
      assert MappedPatient(row) == MapColumn(prev, row[n].0, row[n].1);
      var j := FirstGroup(Lower(row[n].0), 0);
      if j < |FieldMap| {
        FieldNamesShort(j);
        assert FieldMap[j].0 != "previousConsultations";
        PutGet(prev, FieldMap[j].0, Str(row[n].1), "previousConsultations");
      }
    } else {
      DefaultConsultations();
    }
  }

  lemma DefaultConsultations()
    ensures Get(DefaultPatient, "previousConsultations") == Some(Num(0.0))
  {
    var d := DefaultPatient;
    assert d[7] == ("previousConsultations", Num(0.0));
    assert forall j :: 0 <= j < 7 ==> |d[j].0| < 21;
    GetFirst(d, 7);
  }

  /** Mapping only adds keys: every default key is still there. */
  lemma {:induction false} DefaultKeysKept(row: Row)
    ensures forall key :: key in Keys(DefaultPatient) ==> key in Keys(MappedPatient(row))
  {
    if row != [] {
      DefaultKeysKept(row[..|row| - 1]);
    }
  }

  /** A row none of whose columns matches a field gives the default patient. */
  lemma {:induction false} UnmatchedRowGivesDefault(row: Row)
    requires forall k :: 0 <= k < |row| ==> FirstGroup(Lower(row[k].0), 0) == |FieldMap|
    ensures MappedPatient(row) == DefaultPatient
  {
    if row != [] {
      var n := |row| - 1;
      assert forall k :: 0 <= k < n ==> row[..n][k] == row[k];
      UnmatchedRowGivesDefault(row[..n]);
    }
  }

  /** No field of the map is as long as "previousConsultations". */
  lemma FieldNamesShort(j: nat)
    requires j < |FieldMap|
    ensures |FieldMap[j].0| <= 11 < |"previousConsultations"|
  {
  }

  /** A character of `p` that `s` lacks keeps `p` out of `s`. */
  lemma NotInfix(s: string, p: string, c: char)
    requires c in p && c !in s
    ensures !Contains(s, p)
  {
  }

  /** A prefix is contained. */
  lemma PrefixContained(s: string, p: string)
    requires |p| <= |s| && s[..|p|] == p
    ensures Contains(s, p)
  {
    assert s[0..] == s;
  }

  /** Two names each holding a character the other lacks do not match either way. */
  lemma Apart(key: string, name: string, c: char, d: char)
    requires c in key && c !in name && d in name && d !in key
    ensures !NameMatches(key, name)
  {
    NotInfix(key, name, d);
    NotInfix(name, key, c);
  }

  /** A name with a character the key lacks, and the key with one the name lacks, do not match. */
  predicate ApartBy(key: string, name: string, c: char, d: char) {
    c in key && c !in name && d in name && d !in key
  }

  lemma Matches2(key: string, a: string, b: string)
    ensures GroupMatches(key, [a, b]) <==> NameMatches(key, a) || NameMatches(key, b)
  {
    assert [a, b][1..] == [b];
    assert [b][1..] == [];
    assert GroupMatches(key, [b]) <==> NameMatches(key, b);
  }

  lemma Matches3(key: string, a: string, b: string, c: string)
    ensures GroupMatches(key, [a, b, c]) <==> NameMatches(key, a) || NameMatches(key, b) || NameMatches(key, c)
  {
    assert [a, b, c][1..] == [b, c];
    Matches2(key, b, c);
  }

  lemma Matches4(key: string, a: string, b: string, c: string, d: string)
    ensures GroupMatches(key, [a, b, c, d]) <==>
      NameMatches(key, a) || NameMatches(key, b) || NameMatches(key, c) || NameMatches(key, d)
  {
    assert [a, b, c, d][1..] == [b, c, d];
    Matches3(key, b, c, d);
  }

  /** The name group is skipped by a key standing apart from each of its names. */
  lemma MissNameGroup(key: string, c0: char, d0: char, c1: char, d1: char, c2: char, d2: char)
    requires ApartBy(key, "name", c0, d0) && ApartBy(key, "full name", c1, d1) && ApartBy(key, "patient name", c2, d2)
    ensures !GroupMatches(key, ["name", "full name", "patient name"])
  {
    Apart(key, "name", c0, d0);
    Apart(key, "full name", c1, d1);
    Apart(key, "patient name", c2, d2);
    Matches3(key, "name", "full name", "patient name");
  }

  lemma MissEmailGroup(key: string, c0: char, d0: char, c1: char, d1: char)
    requires ApartBy(key, "email", c0, d0) && ApartBy(key, "email address", c1, d1)
    ensures !GroupMatches(key, ["email", "email address"])
  {
    Apart(key, "email", c0, d0);
    Apart(key, "email address", c1, d1);
    Matches2(key, "email", "email address");
  }

  lemma MissPhoneGroup(key: string, c0: char, d0: char, c1: char, d1: char, c2: char, d2: char)
    requires ApartBy(key, "phone", c0, d0) && ApartBy(key, "phone number", c1, d1) && ApartBy(key, "telephone", c2, d2)
    ensures !GroupMatches(key, ["phone", "phone number", "telephone"])
  {
    Apart(key, "phone", c0, d0);
    Apart(key, "phone number", c1, d1);
    Apart(key, "telephone", c2, d2);
    Matches3(key, "phone", "phone number", "telephone");
  }

  lemma MissDobGroup(key: string, c0: char, d0: char, c1: char, d1: char, c2: char, d2: char, c3: char, d3: char)
    requires ApartBy(key, "dob", c0, d0) && ApartBy(key, "date of birth", c1, d1)
    requires ApartBy(key, "birthdate", c2, d2) && ApartBy(key, "birth date", c3, d3)
    ensures !GroupMatches(key, ["dob", "date of birth", "birthdate", "birth date"])
  {
    Apart(key, "dob", c0, d0);
    Apart(key, "date of birth", c1, d1);
    Apart(key, "birthdate", c2, d2);
    Apart(key, "birth date", c3, d3);
    Matches4(key, "dob", "date of birth", "birthdate", "birth date");
  }

  lemma MissInsuranceGroup(key: string, c0: char, d0: char, c1: char, d1: char, c2: char, d2: char)
    requires ApartBy(key, "insurance", c0, d0) && ApartBy(key, "insurance provider", c1, d1)
    requires ApartBy(key, "insurance company", c2, d2)
    ensures !GroupMatches(key, ["insurance", "insurance provider", "insurance company"])
  {
    Apart(key, "insurance", c0, d0);
    Apart(key, "insurance provider", c1, d1);
    Apart(key, "insurance company", c2, d2);
    Matches3(key, "insurance", "insurance provider", "insurance company");
  }

  /** A group that matches, after groups that all miss, is the one found. */
  lemma FirstGroupAt(key: string, j: nat)
    requires j < |FieldMap| && GroupMatches(key, FieldMap[j].1)
    requires forall i :: 0 <= i < j ==> !GroupMatches(key, FieldMap[i].1)
    ensures FirstGroup(key, 0) == j
  {
    FirstGroupIsFirst(key, 0);
  }

  /** An "Insurance ID" column lands in `insurance`: the `insurance` names come first and match as substrings. */
  lemma InsuranceIdHeaderLandsInInsurance(key: string)
    requires key == "insurance id"
    ensures FirstGroup(key, 0) == 4 && FieldMap[4].0 == "insurance"
  {
    InsuranceIdMissesName(key);
    InsuranceIdMissesEmail(key);
    InsuranceIdMissesPhone(key);
    InsuranceIdMissesDob(key);
    MissedGroups(key);
    assert |key| >= 9 && key[..9] == "insurance";
    PrefixContained(key, "insurance");
    GroupFourFound(key);
  }

  lemma MissedGroups(key: string)
    requires !GroupMatches(key, ["name", "full name", "patient name"])
    requires !GroupMatches(key, ["email", "email address"])
    requires !GroupMatches(key, ["phone", "phone number", "telephone"])
    requires !GroupMatches(key, ["dob", "date of birth", "birthdate", "birth date"])
    ensures forall i :: 0 <= i < 4 ==> !GroupMatches(key, FieldMap[i].1)
  {
  }

  lemma GroupFourFound(key: string)
    requires forall i :: 0 <= i < 4 ==> !GroupMatches(key, FieldMap[i].1)
    requires Contains(key, "insurance")
    ensures FirstGroup(key, 0) == 4
  {
    assert NameMatches(key, FieldMap[4].1[0]);
    FirstGroupAt(key, 4);
  }

  /** A "Member ID" column reaches the `insuranceid` group, the sixth. */
  lemma MemberIdReachesInsuranceIdGroup(key: string)
    requires key == "member id"
    ensures FirstGroup(key, 0) == 5 && FieldMap[5].0 == "insuranceid"
  {
    MemberIdMissesName(key);
    MemberIdMissesEmail(key);
    MemberIdMissesPhone(key);
    MemberIdMissesDob(key);
    MissedGroups(key);
    ContainsTrivial(key);
    MemberIdMissesInsurance(key);
    GroupFiveFound(key);
  }

  lemma InsuranceIdMissesName(key: string)
    requires key == "insurance id"
    ensures !GroupMatches(key, ["name", "full name", "patient name"])
  {
    MissNameGroup(key, 'i', 'm', 'i', 'm', 's', 'm');
  }

  lemma InsuranceIdMissesEmail(key: string)
    requires key == "insurance id"
    ensures !GroupMatches(key, ["email", "email address"])
  {
    MissEmailGroup(key, 's', 'm', 'u', 'm');
  }

  lemma InsuranceIdMissesPhone(key: string)
    requires key == "insurance id"
    ensures !GroupMatches(key, ["phone", "phone number", "telephone"])
  {
    MissPhoneGroup(key, 'i', 'p', 'i', 'p', 'i', 'p');
  }

  lemma InsuranceIdMissesDob(key: string)
    requires key == "insurance id"
    ensures !GroupMatches(key, ["dob", "date of birth", "birthdate", "birth date"])
  {
    MissDobGroup(key, 'i', 'o', 's', 'o', 's', 'b', 's', 'b');
  }

  lemma MemberIdMissesName(key: string)
    requires key == "member id"
    ensures !GroupMatches(key, ["name", "full name", "patient name"])
  {
    MissNameGroup(key, 'b', 'n', 'b', 'n', 'b', 'n');
  }

  lemma MemberIdMissesEmail(key: string)
    requires key == "member id"
    ensures !GroupMatches(key, ["email", "email address"])
  {
    MissEmailGroup(key, 'b', 'a', 'b', 'a');
  }

  lemma MemberIdMissesPhone(key: string)
    requires key == "member id"
    ensures !GroupMatches(key, ["phone", "phone number", "telephone"])
  {
    MissPhoneGroup(key, 'b', 'p', 'i', 'p', 'b', 'p');
  }

  lemma MemberIdMissesDob(key: string)
    requires key == "member id"
    ensures !GroupMatches(key, ["dob", "date of birth", "birthdate", "birth date"])
  {
    MissDobGroup(key, 'm', 'o', 'm', 'a', 'm', 'a', 'm', 'a');
  }


  lemma GroupFiveFound(key: string)
    requires forall i :: 0 <= i < 4 ==> !GroupMatches(key, FieldMap[i].1)
    requires !GroupMatches(key, ["insurance", "insurance provider", "insurance company"])
    requires Contains(key, "member id")
    ensures FirstGroup(key, 0) == 5
  {
    MissedGroupFour(key);
    Matches4(key, "insurance id", "insuranceid", "insurance number", "member id");
    assert GroupMatches(key, FieldMap[5].1);
    FirstGroupAt(key, 5);
  }

  lemma MemberIdMissesInsurance(key: string)
    requires key == "member id"
    ensures !GroupMatches(key, ["insurance", "insurance provider", "insurance company"])
  {
    MissInsuranceGroup(key, 'b', 'n', 'b', 'n', 'b', 'n');
  }

  lemma MissedGroupFour(key: string)
    requires forall i :: 0 <= i < 4 ==> !GroupMatches(key, FieldMap[i].1)
    requires !GroupMatches(key, ["insurance", "insurance provider", "insurance company"])
    ensures forall i :: 0 <= i < 5 ==> !GroupMatches(key, FieldMap[i].1)
  {
  }

  /**
   * The `insuranceid` group writes the key "insuranceid": a ninth key, while the default
   * "insuranceId" stays "".
   */
  lemma InsuranceIdGroupWritesSeparateKey(key: string, value: string)
    requires FirstGroup(Lower(key), 0) == 5
    ensures var p := MappedPatient([(key, value)]);
      && Get(p, "insuranceid") == Some(Str(value))
      && TextField(p, "insuranceId") == ""
      && Keys(p) == Keys(DefaultPatient) + ["insuranceid"]
  {
    var row := [(key, value)];
    MappedSnoc(row);
    assert row[..0] == [];
    DefaultLacksInsuranceid();
    ColumnToInsuranceId(DefaultPatient, key, value);
  }

  lemma ColumnToInsuranceId(prev: Record, key: string, v: string)
    requires FirstGroup(Lower(key), 0) == 5 && "insuranceid" !in Keys(prev)
    ensures var p := MapColumn(prev, key, v);
      && Get(p, "insuranceid") == Some(Str(v))
      && Get(p, "insuranceId") == Get(prev, "insuranceId")
      && Keys(p) == Keys(prev) + ["insuranceid"]
  {
    assert "insuranceid"[9] != "insuranceId"[9];
  }

  /** The default patient spells the field `insuranceId`, and has no `insuranceid`. */
  lemma DefaultLacksInsuranceid()
    ensures "insuranceid" !in Keys(DefaultPatient)
    ensures Get(DefaultPatient, "insuranceId") == Some(Str(""))
  {
    DefaultInsuranceId();
    DefaultKeyLengths();
    NoLowerInsuranceid(DefaultPatient);
  }

  lemma NoLowerInsuranceid(d: Record)
    requires |d| == 8 && d[5].0 == "insuranceId"
    requires forall j :: 0 <= j < |d| && j != 5 ==> |d[j].0| != 11
    ensures "insuranceid" !in Keys(d)
  {
    var ks := Keys(d);
    forall j | 0 <= j < |ks| ensures ks[j] != "insuranceid" {
      if j == 5 {
        assert ks[j][9] == 'I';
      }
    }
  }

  lemma DefaultInsuranceId()
    ensures Get(DefaultPatient, "insuranceId") == Some(Str(""))
  {
    DefaultKeyLengths();
    GetFirst(DefaultPatient, 5);
  }

  /** The default keys, told apart by length; `insuranceId` is the sixth. */
  lemma DefaultKeyLengths()
    ensures |DefaultPatient| == 8 && DefaultPatient[5] == ("insuranceId", Str(""))
    ensures forall j :: 0 <= j < |DefaultPatient| && j != 5 ==> |DefaultPatient[j].0| != 11
  {
  }

  /**
   * The field map as evidently intended: the same groups in the same order, but the sixth writes
   * the default patient's own `insuranceId`.
   */
  const IntendedFieldMap: seq<(string, seq<string>)> := FieldMap[5 := ("insuranceId", FieldMap[5].1)]

  /** One column under the intended map: the group is found as before, the field written is the intended one. */
  function IntendedMapColumn(patient: Record, key: string, value: string): Record {
    var j := FirstGroup(Lower(key), 0);
    if j < |IntendedFieldMap| then Put(patient, IntendedFieldMap[j].0, Str(value)) else patient
  }

  /** The patient built from the columns in row order under the intended map. */
  function IntendedMappedPatient(row: Row): Record {
    if row == [] then DefaultPatient
    else
      var n := |row| - 1;
      IntendedMapColumn(IntendedMappedPatient(row[..n]), row[n].0, row[n].1)
  }

  /** Every field the intended map writes is one the default patient already has. */
  lemma IntendedFieldsAreDefaultKeys(j: nat)
    requires j < |IntendedFieldMap|
    ensures IntendedFieldMap[j].0 in Keys(DefaultPatient)
  {
    var ks := Keys(DefaultPatient);
    assert ks[0] == "name" && ks[1] == "email" && ks[2] == "phone" && ks[3] == "dob";
    assert ks[4] == "insurance" && ks[5] == "insuranceId" && ks[6] == "status";
  }

  /** Under the intended map no column adds a key: the patient keeps exactly the default keys. */
  lemma {:induction false} IntendedKeepsDefaultKeys(row: Row)
    ensures Keys(IntendedMappedPatient(row)) == Keys(DefaultPatient)
  {
    if row != [] {
      var n := |row| - 1;
      IntendedKeepsDefaultKeys(row[..n]);
      var j := FirstGroup(Lower(row[n].0), 0);
      if j < |IntendedFieldMap| {
        IntendedFieldsAreDefaultKeys(j);
      }
    }
  }

  /** Under the intended map a "member id" column fills `insuranceId`, and no `insuranceid` key appears. */
  lemma IntendedMemberIdFillsInsuranceId(value: string)
    ensures var p := IntendedMappedPatient([("member id", value)]);
      && Get(p, "insuranceId") == Some(Str(value))
      && Keys(p) == Keys(DefaultPatient)
      && "insuranceid" !in Keys(p)
  {
    var row := [("member id", value)];
    assert row[..0] == [];
    assert Lower("member id") == "member id";
    MemberIdReachesInsuranceIdGroup("member id");
    IntendedKeepsDefaultKeys(row);
    DefaultLacksInsuranceid();
  }

  /** A column with an empty header (a trailing comma on the header line) is written to `name`. */
  lemma EmptyHeaderOverwritesName(row: Row)
    requires row != [] && row[|row| - 1].0 == ""
    ensures Get(MappedPatient(row), "name") == Some(Str(row[|row| - 1].1))
  {
    var n := |row| - 1;
    EmptyKeyIsName(Lower(row[n].0));
    MappedSnoc(row);
    ColumnToName(MappedPatient(row[..n]), row[n].0, row[n].1);
  }

  lemma ColumnToName(prev: Record, key: string, v: string)
    requires FirstGroup(Lower(key), 0) == 0
    ensures Get(MapColumn(prev, key, v), "name") == Some(Str(v))
  {
  }

  lemma EmptyKeyIsName(key: string)
    requires key == []
    ensures FirstGroup(key, 0) == 0
  {
    ContainsTrivial(FieldMap[0].1[0]);
    assert NameMatches(key, FieldMap[0].1[0]);
  }

  lemma MappedSnoc(row: Row)
    requires row != []
    ensures MappedPatient(row) == MapColumn(MappedPatient(row[..|row| - 1]), row[|row| - 1].0, row[|row| - 1].1)
  {
  }

  /** A key made only of digits, the kind `Object.keys` lists first, matches no field. */
  lemma DigitKeysMatchNothing(key: string)
    requires key != [] && AllDigits(key)
    ensures FirstGroup(key, 0) == |FieldMap|
  {
    FieldNamesHaveNoDigits();
    forall g | 0 <= g < |FieldMap| ensures !GroupMatches(key, FieldMap[g].1) {
      DigitKeyMissesGroup(key, FieldMap[g].1);
    }
    FirstGroupIsFirst(key, 0);
  }

  predicate NoDigits(s: string) {
    forall i :: 0 <= i < |s| ==> !IsDigit(s[i])
  }

  /** Every name of the list is non-empty and free of digits. */
  predicate LetterNames(names: seq<string>) {
    names == [] || (names[0] != [] && NoDigits(names[0]) && LetterNames(names[1..]))
  }

  lemma FieldNamesHaveNoDigits()
    ensures forall g :: 0 <= g < |FieldMap| ==> LetterNames(FieldMap[g].1)
  {
    NameEmailNamesHaveNoDigits();
    PhoneDobNamesHaveNoDigits();
    InsuranceNamesHaveNoDigits();
    InsuranceIdNamesHaveNoDigits();
    StatusNamesHaveNoDigits();
  }

  lemma NameEmailNamesHaveNoDigits()
    ensures forall g :: 0 <= g < 2 ==> LetterNames(FieldMap[g].1)
  {
  }

  lemma PhoneDobNamesHaveNoDigits()
    ensures forall g :: 2 <= g < 4 ==> LetterNames(FieldMap[g].1)
  {
  }

  lemma InsuranceNamesHaveNoDigits()
    ensures LetterNames(FieldMap[4].1)
  {
  }

  lemma InsuranceIdNamesHaveNoDigits()
    ensures LetterNames(FieldMap[5].1)
  {
  }

  lemma StatusNamesHaveNoDigits()
    ensures forall g :: 6 <= g < |FieldMap| ==> LetterNames(FieldMap[g].1)
  {
  }

  lemma {:induction false} DigitKeyMissesGroup(key: string, names: seq<string>)
    requires key != [] && AllDigits(key) && LetterNames(names)
    ensures !GroupMatches(key, names)
  {
    if names != [] {
      var name := names[0];
      assert name[0] in name && !IsDigit(name[0]);
      NotInfix(key, name, name[0]);
      assert key[0] in key && IsDigit(key[0]);
      NotInfix(name, key, key[0]);
      DigitKeyMissesGroup(key, names[1..]);
    }
  }

  /** Parts of at most `m` messages each give at most `m` messages per part. */
  lemma {:induction false} FlattenBound(parts: seq<seq<string>>, m: nat)
    requires forall k :: 0 <= k < |parts| ==> |parts[k]| <= m
    ensures |Flatten(parts)| <= m * |parts|
  {
    if parts != [] {
      FlattenBound(parts[..|parts| - 1], m);
    }
  }

  /** The concatenation is empty exactly when every part is. */
  lemma {:induction false} FlattenEmpty(parts: seq<seq<string>>)
    ensures Flatten(parts) == [] <==> forall k :: 0 <= k < |parts| ==> parts[k] == []
  {
    if parts != [] {
      var init := parts[..|parts| - 1];
      FlattenEmpty(init);
      assert forall k :: 0 <= k < |init| ==> init[k] == parts[k];
      assert |Flatten(parts)| == |Flatten(init)| + |parts[|parts| - 1]|;
    }
  }

  /** The errors of an import number at most two per row. */
  lemma AllErrorsLength(patients: seq<Record>)
    ensures |AllErrors(patients)| <= 2 * |patients|
  {
    FlattenBound(RowErrors(patients), 2);
  }

  /** An import has no errors exactly when every one of its rows has none. */
  lemma AllErrorsEmpty(patients: seq<Record>)
    ensures AllErrors(patients) == [] <==> forall k :: 0 <= k < |patients| ==> PatientErrors(patients[k], k) == []
  {
    FlattenEmpty(RowErrors(patients));
  }
}
