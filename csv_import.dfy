/**
 * The CSV contact import: the file's text is cut into lines, blank lines
 * are dropped, the first line names the columns and every further line
 * becomes one contact. A contact maps each column name to the trimmed
 * cell in that column, except that a non-empty `tags` cell becomes the
 * list of its `;`-separated tags. Each contact starts with the id
 * `imported_<n>`, n counting the data lines from 0.
 */
module CsvImport {
  import opened Options
  import opened Strings
  import opened Lists

  /** The value stored under a column name: text, or the list a `tags` cell becomes. */
  datatype Field = Text(value: string) | TagList(tags: seq<string>)

  /** A contact: column names (and `id`) to values, as the untyped object the source builds. */
  type Contact = map<string, Field>

  /** `line.trim()` is truthy. */
  predicate NotBlank(line: string) {
    !AllSpace(line)
  }

  /** `text.split('\n').filter(line => line.trim())`: the non-blank lines, in order. */
  function Lines(text: string): (lines: seq<string>)
    ensures forall l :: l in lines <==> l in Split(text, '\n') && NotBlank(l)
    ensures IsSubsequence(lines, Split(text, '\n'))
  {
    FilterIsSubsequence(Split(text, '\n'), NotBlank);
    Filter(Split(text, '\n'), NotBlank)
  }

  /** `line.trim()` is falsy. */
  predicate Blank(line: string) {
    AllSpace(line)
  }

  /**
   * Only blank lines are dropped: the kept lines and the blank ones add up
   * to all the lines, so with the order kept every non-blank line is there,
   * repeated lines included.
   */
  lemma LinesDropOnlyBlank(text: string)
    ensures |Lines(text)| + |Filter(Split(text, '\n'), Blank)| == |Split(text, '\n')|
  {
    FilterPartition(Split(text, '\n'), NotBlank, Blank);
  }

  /** `line.split(',').map(h => h.trim().toLowerCase())`: the column names of the header line. */
  function Headers(line: string): (headers: seq<string>)
    ensures |headers| == |Split(line, ',')|
    ensures forall i :: 0 <= i < |headers| ==> headers[i] == ToLower(Trim(Split(line, ',')[i]))
  {
    var cells := Split(line, ',');
    seq(|cells|, i requires 0 <= i < |cells| => ToLower(Trim(cells[i])))
  }

  /** `tag.trim()` for every tag. */
  function TrimAll(pieces: seq<string>): (r: seq<string>)
    ensures |r| == |pieces|
    ensures forall i :: 0 <= i < |pieces| ==> r[i] == Trim(pieces[i])
  {
    seq(|pieces|, i requires 0 <= i < |pieces| => Trim(pieces[i]))
  }

  /** The value column `i` gives the column named `header`. */
  function FieldFor(header: string, values: seq<string>, i: nat): Field {
    if header == "tags" && i < |values| && values[i] != [] then TagList(TrimAll(Split(values[i], ';')))
    else if i < |values| then Text(Trim(values[i]))
    else Text([])
  }

  /**
   * A column gives a tag list exactly when it is named `tags` and its cell
   * is non-empty (one space is enough); the list has one trimmed tag per
   * `;`-separated piece. Any other column gives its trimmed cell, and a
   * row too short for the column gives "".
   */
  lemma FieldForCases(header: string, values: seq<string>, i: nat)
    ensures FieldFor(header, values, i).TagList? <==> header == "tags" && i < |values| && values[i] != []
    ensures FieldFor(header, values, i).TagList? ==>
      FieldFor(header, values, i).tags == TrimAll(Split(values[i], ';'))
    ensures FieldFor(header, values, i).Text? && i < |values| ==> FieldFor(header, values, i).value == Trim(values[i])
    ensures i >= |values| ==> FieldFor(header, values, i) == Text([])
  {
  }

  /** The id of the data line with the given index, `imported_${index}`. */
  function ImportedId(index: nat): string {
    "imported_" + NatToString(index)
  }

  /** Different data lines get different ids. */
  lemma ImportedIdInjective(m: nat, n: nat)
    requires m != n
    ensures ImportedId(m) != ImportedId(n)
  {
    NatToStringInjective(m, n);
    var p := "imported_";
    assert ImportedId(m)[|p|..] == NatToString(m);
    assert ImportedId(n)[|p|..] == NatToString(n);
  }

  /** The contact before any column is stored: only its id. */
  function Initial(index: nat): Contact {
    map["id" := Text(ImportedId(index))]
  }

  /** The value of every column of a row, in column order. */
  function Fields(headers: seq<string>, values: seq<string>): (fields: seq<Field>)
    ensures |fields| == |headers|
    ensures forall i :: 0 <= i < |headers| ==> fields[i] == FieldFor(headers[i], values, i)
  {
    seq(|headers|, i requires 0 <= i < |headers| => FieldFor(headers[i], values, i))
  }

  /** The contact after the first `n` columns have been stored over `init`, each over what was there. */
  function Assign(init: Contact, headers: seq<string>, fields: seq<Field>, n: nat): Contact
    requires n <= |headers| && n <= |fields|
  {
    if n == 0 then init
    else Assign(init, headers, fields, n - 1)[headers[n - 1] := fields[n - 1]]
  }

  /** The contact a data line becomes once every column is stored. */
  function ContactOf(headers: seq<string>, values: seq<string>, index: nat): Contact {
    Assign(Initial(index), headers, Fields(headers, values), |headers|)
  }

  /**
   * The `headers.forEach` loop: starting from the id, store under each
   * column name the value of that column, in column order.
   */
  method BuildContact(headers: seq<string>, line: string, index: nat) returns (contact: Contact)
    ensures contact == ContactOf(headers, Split(line, ','), index)
  {
    var values := Split(line, ',');
    contact := StoreColumns(Initial(index), headers, Fields(headers, values));
  }

  /** The loop itself: each column's value stored over the contact so far, left to right. */
  method StoreColumns(init: Contact, headers: seq<string>, fields: seq<Field>) returns (contact: Contact)
    requires |fields| == |headers|
    ensures contact == Assign(init, headers, fields, |headers|)
  {
    contact := init;
    for i := 0 to |headers|
      invariant contact == Assign(init, headers, fields, i)
    {
      contact := contact[headers[i] := fields[i]];
    }
  }

  /** Storing the columns adds one key per column name to the keys already there, nothing else. */
  lemma {:induction false} AssignKeys(init: Contact, headers: seq<string>, fields: seq<Field>, n: nat)
    requires n <= |headers| && n <= |fields|
    ensures Assign(init, headers, fields, n).Keys == init.Keys + set k | 0 <= k < n :: headers[k]
  {
    if n > 0 {
      AssignKeys(init, headers, fields, n - 1);
      assert (set k | 0 <= k < n :: headers[k]) == (set k | 0 <= k < n - 1 :: headers[k]) + {headers[n - 1]};
    }
  }

  /**
   * When a column name repeats, the last column with that name wins: the
   * contact holds the value of the column `i` such that no later column
   * has the same name.
   */
  lemma {:induction false} AssignLastWins(init: Contact, headers: seq<string>, fields: seq<Field>, n: nat, i: nat)
    requires i < n <= |headers| && n <= |fields|
    requires forall k :: i < k < n ==> headers[k] != headers[i]
    ensures headers[i] in Assign(init, headers, fields, n)
    ensures Assign(init, headers, fields, n)[headers[i]] == fields[i]
  {
    if i < n - 1 {
      AssignLastWins(init, headers, fields, n - 1, i);
    }
  }

  /** A key no column is named after keeps its value; so the id stays unless a column is named `id`. */
  lemma {:induction false} AssignKeepsKey(init: Contact, headers: seq<string>, fields: seq<Field>, n: nat, key: string)
    requires n <= |headers| && n <= |fields| && key in init
    requires forall k :: 0 <= k < n ==> headers[k] != key
    ensures key in Assign(init, headers, fields, n)
    ensures Assign(init, headers, fields, n)[key] == init[key]
  {
    if n > 0 {
      AssignKeepsKey(init, headers, fields, n - 1, key);
    }
  }

  /** Cells beyond the last column are ignored. */
  lemma ExtraCellsIgnored(headers: seq<string>, values: seq<string>)
    requires |headers| <= |values|
    ensures Fields(headers, values) == Fields(headers, values[..|headers|])
  {
    assert forall i :: 0 <= i < |headers| ==> values[..|headers|][i] == values[i];
  }

  /** `lines.slice(1).map((line, index) => …)`: one contact per data line, indexed from 0. */
  function ContactsOf(headers: seq<string>, rows: seq<string>): (contacts: seq<Contact>)
    ensures |contacts| == |rows|
  {
    seq(|rows|, k requires 0 <= k < |rows| => ContactOf(headers, Split(rows[k], ','), k))
  }

  /** What reading the text gives: a failure (no header line), or the contacts. */
  datatype ParseResult = NoHeaderLine | Parsed(contacts: seq<Contact>)

  /**
   * The parsing inside `handleUpload`. Text without a non-blank line has
   * no `lines[0]`; reading a column of it throws, which the dialog reports
   * as an error.
   */
  function ParseCsv(text: string): (r: ParseResult)
    ensures r.NoHeaderLine? <==> Lines(text) == []
  {
    var lines := Lines(text);
    if lines == [] then NoHeaderLine
    else Parsed(ContactsOf(Headers(lines[0]), lines[1..]))
  }

  /** Otherwise there is one contact per non-blank line after the first, in order, read with the first line's columns. */
  lemma ParsedContacts(text: string)
    requires ParseCsv(text).Parsed?
    ensures |ParseCsv(text).contacts| == |Lines(text)| - 1
    ensures forall k :: 0 <= k < |ParseCsv(text).contacts| ==>
      ParseCsv(text).contacts[k] == ContactOf(Headers(Lines(text)[0]), Split(Lines(text)[k + 1], ','), k)
  {
    var lines := Lines(text);
    var contacts := ContactsOf(Headers(lines[0]), lines[1..]);
    assert ParseCsv(text).contacts == contacts;
    forall k | 0 <= k < |contacts|
      ensures contacts[k] == ContactOf(Headers(lines[0]), Split(lines[k + 1], ','), k)
    {
      assert lines[1..][k] == lines[k + 1];
    }
  }

  /** Without a column named `id`, the imported contacts have pairwise different ids. */
  lemma ParsedIdsDistinct(text: string, k: nat, m: nat)
    requires ParseCsv(text).Parsed? && k < m < |ParseCsv(text).contacts|
    requires "id" !in Headers(Lines(text)[0])
    ensures "id" in ParseCsv(text).contacts[k] && "id" in ParseCsv(text).contacts[m]
    ensures ParseCsv(text).contacts[k]["id"] != ParseCsv(text).contacts[m]["id"]
  {
    var headers := Headers(Lines(text)[0]);
    ParsedContacts(text);
    forall j | 0 <= j < |headers| ensures headers[j] != "id" {
      assert headers[j] in headers;
    }
    AssignKeepsKey(Initial(k), headers, Fields(headers, Split(Lines(text)[k + 1], ',')), |headers|, "id");
    AssignKeepsKey(Initial(m), headers, Fields(headers, Split(Lines(text)[m + 1], ',')), |headers|, "id");
    ImportedIdInjective(k, m);
  }

  /** A chosen file: its MIME type and its text. */
  datatype CsvFile = CsvFile(mimeType: string, text: string)

  /** What pressing the import button did. */
  datatype UploadOutcome =
    | NoFile                          // "Selecione um arquivo CSV"
    | Failed                          // "Erro ao processar o arquivo CSV"
    | Imported(contacts: seq<Contact>)  // handed to `onImportComplete`

  /** The dialog's state. */
  class CsvImportDialog {
    var open: bool
    var file: Option<CsvFile>
    var isUploading: bool

    constructor ()
      ensures !open && file == None && !isUploading
    {
      open := false;
      file := None;
      isUploading := false;
    }

    /** `handleFileChange`: only a file of type `text/csv` is kept; anything else is refused and the old choice stays. */
    method ChooseFile(selected: Option<CsvFile>) returns (accepted: bool)
      modifies this
      ensures accepted <==> selected.Some? && selected.value.mimeType == "text/csv"
      ensures accepted ==> file == selected
      ensures !accepted ==> file == old(file)
      ensures open == old(open) && isUploading == old(isUploading)
    {
      accepted := selected.Some? && selected.value.mimeType == "text/csv";
      if accepted {
        file := selected;
      }
    }

    /**
     * `handleUpload`: without a file nothing happens but the error. With
     * one, its text is parsed; on success the contacts go to the caller
     * and the dialog closes and forgets the file, on failure both stay.
     * The busy flag is off again at the end either way.
     */
    method Upload() returns (outcome: UploadOutcome)
      modifies this
      ensures old(file).None? ==> outcome == NoFile && open == old(open) && file == old(file) && isUploading == old(isUploading)
      ensures old(file).Some? && ParseCsv(old(file).value.text).NoHeaderLine? ==>
        outcome == Failed && open == old(open) && file == old(file) && !isUploading
      ensures old(file).Some? && ParseCsv(old(file).value.text).Parsed? ==>
        outcome == Imported(ParseCsv(old(file).value.text).contacts) && !open && file == None && !isUploading
    {
      if file.None? {
        return NoFile;
      }
      isUploading := true;
      match ParseCsv(file.value.text) {
        case NoHeaderLine =>
          outcome := Failed;
        case Parsed(contacts) =>
          outcome := Imported(contacts);
          open := false;
          file := None;
      }
      isUploading := false;
    }
  }

  /*
   * The template the dialog offers for download: a header line and two
   * contacts, the first with two tags. Its text is
   * "nome,telefone,email,segmento,tags\nJoão Silva,5511999999999,joao@email.com,Clientes Quentes,Gosta de Frango;VIP\nMaria Santos,5511888888888,maria@email.com,Novos,Vegetarianos",
   * written below as its lines joined by newlines and its cells joined by commas.
   */

  const TemplateHeader: seq<string> := ["nome", "telefone", "email", "segmento", "tags"]
  const TemplateFirstRow: seq<string> :=
    ["João Silva", "5511999999999", "joao@email.com", "Clientes Quentes", "Gosta de Frango" + ";" + "VIP"]
  const TemplateSecondRow: seq<string> := ["Maria Santos", "5511888888888", "maria@email.com", "Novos", "Vegetarianos"]

  /** The template's lines. */
  function TemplateLines(): seq<string> {
    [Join(TemplateHeader, ','), Join(TemplateFirstRow, ','), Join(TemplateSecondRow, ',')]
  }

  /** The template's text. */
  function TemplateText(): string {
    Join(TemplateLines(), '\n')
  }

  /** No cell holds a comma or a line break. */
  predicate PlainCells(row: seq<string>) {
    forall i :: 0 <= i < |row| ==> ',' !in row[i] && '\n' !in row[i]
  }

  lemma HeaderCellsPlain()
    ensures PlainCells(TemplateHeader)
  {
  }

  lemma FirstRowCellsPlain()
    ensures PlainCells(TemplateFirstRow)
  {
  }

  lemma SecondRowCellsPlain()
    ensures PlainCells(TemplateSecondRow)
  {
  }

  /** A row of plain cells is one non-blank line that splits back into its cells. */
  lemma PlainRow(row: seq<string>)
    requires |row| >= 2 && PlainCells(row)
    ensures '\n' !in Join(row, ',') && NotBlank(Join(row, ','))
    ensures Split(Join(row, ','), ',') == row
  {
    JoinExcludes(row, ',', '\n');
    SplitJoin(row, ',');
    assert Join(row, ',')[|row[0]|] == ',';
  }

  /** Three rows of plain cells are three kept lines. */
  lemma ThreeRowsKept(a: seq<string>, b: seq<string>, c: seq<string>)
    requires |a| >= 2 && |b| >= 2 && |c| >= 2
    requires PlainCells(a) && PlainCells(b) && PlainCells(c)
    ensures Lines(Join([Join(a, ','), Join(b, ','), Join(c, ',')], '\n')) == [Join(a, ','), Join(b, ','), Join(c, ',')]
  {
    var rows := [Join(a, ','), Join(b, ','), Join(c, ',')];
    PlainRow(a);
    PlainRow(b);
    PlainRow(c);
    SplitJoin(rows, '\n');
    FilterAll(rows, NotBlank);
  }

  /** Every line of the template is kept, in order. */
  lemma TemplateLinesKept()
    ensures Lines(TemplateText()) == TemplateLines()
  {
    HeaderCellsPlain();
    FirstRowCellsPlain();
    SecondRowCellsPlain();
    ThreeRowsKept(TemplateHeader, TemplateFirstRow, TemplateSecondRow);
  }

  /** A header line of five plain cells has five columns, the fifth named by its last cell trimmed and lower-cased. */
  lemma FifthHeader(row: seq<string>, name: string)
    requires |row| == 5 && PlainCells(row) && ToLower(Trim(row[4])) == name
    ensures |Headers(Join(row, ','))| == 5
    ensures Headers(Join(row, ','))[4] == name
  {
    PlainRow(row);
  }

  /** A four-letter cell without capitals or surrounding whitespace names the column of the same name. */
  lemma PlainWordCell(c0: char, c1: char, c2: char, c3: char)
    requires !('A' <= c0 <= 'Z') && !('A' <= c1 <= 'Z') && !('A' <= c2 <= 'Z') && !('A' <= c3 <= 'Z')
    requires !IsSpace(c0) && !IsSpace(c3)
    ensures ToLower(Trim([c0, c1, c2, c3])) == [c0, c1, c2, c3]
  {
    TrimUnpadded([c0, c1, c2, c3]);
    ToLowerNoCapitals(c0, c1, c2, c3);
  }

  /** The cell `tags` names the column `tags`. */
  lemma TagsCell()
    ensures ToLower(Trim("tags")) == "tags"
  {
    PlainWordCell('t', 'a', 'g', 's');
  }

  /** A tag without `;` and without surrounding whitespace is read as itself. */
  lemma OneTag(a: string)
    requires ';' !in a && a != [] && !IsSpace(a[0]) && !IsSpace(a[|a| - 1])
    ensures TrimAll(Split(a, ';')) == [a]
  {
    NoSeparatorIsOnePiece(a, ';');
    TrimUnpadded(a);
  }

  /** Two such tags with a `;` between them are read as the two tags. */
  lemma TwoTags(a: string, b: string)
    requires ';' !in a && a != [] && !IsSpace(a[0]) && !IsSpace(a[|a| - 1])
    requires ';' !in b && b != [] && !IsSpace(b[0]) && !IsSpace(b[|b| - 1])
    ensures TrimAll(Split(a + [';'] + b, ';')) == [a, b]
  {
    SplitPrefix(a, b, ';');
    NoSeparatorIsOnePiece(b, ';');
    TrimUnpadded(a);
    TrimUnpadded(b);
  }

  /** "Gosta de Frango;VIP" is the two tags. */
  lemma FirstRowTags()
    ensures TrimAll(Split(TemplateFirstRow[4], ';')) == ["Gosta de Frango", "VIP"]
  {
    TwoTags("Gosta de Frango", "VIP");
  }

  /** "Vegetarianos" is one tag. */
  lemma SecondRowTags()
    ensures TrimAll(Split(TemplateSecondRow[4], ';')) == ["Vegetarianos"]
  {
    OneTag("Vegetarianos");
  }

  /** With `tags` as the last of five columns, a row's contact holds that cell's tags. */
  lemma TagsOfRow(headers: seq<string>, row: seq<string>, index: nat, tags: seq<string>)
    requires |headers| == 5 && headers[4] == "tags" && |row| == 5 && row[4] != []
    requires TrimAll(Split(row[4], ';')) == tags
    ensures "tags" in ContactOf(headers, row, index)
    ensures ContactOf(headers, row, index)["tags"] == TagList(tags)
  {
    AssignLastWins(Initial(index), headers, Fields(headers, row), 5, 4);
  }

  /** A header row of five plain cells, the last naming the column `tags`. */
  predicate TagsHeaderRow(h: seq<string>) {
    |h| == 5 && PlainCells(h) && ToLower(Trim(h[4])) == "tags"
  }

  /** A data row of five plain cells whose last cell reads as the given tags. */
  predicate TaggedRow(a: seq<string>, tags: seq<string>) {
    |a| == 5 && PlainCells(a) && a[4] != [] && TrimAll(Split(a[4], ';')) == tags
  }

  /** Five plain cells, the last of them `tags`. */
  lemma TagsLastCell(h: seq<string>)
    requires |h| == 5 && PlainCells(h) && h[4] == "tags"
    ensures TagsHeaderRow(h)
  {
    TagsCell();
  }

  lemma TemplateHeaderRow()
    ensures TagsHeaderRow(TemplateHeader)
  {
    HeaderCellsPlain();
    TagsLastCell(TemplateHeader);
  }

  lemma TemplateFirstRowTagged()
    ensures TaggedRow(TemplateFirstRow, ["Gosta de Frango", "VIP"])
  {
    FirstRowCellsPlain();
    FirstRowTags();
  }

  lemma TemplateSecondRowTagged()
    ensures TaggedRow(TemplateSecondRow, ["Vegetarianos"])
  {
    SecondRowCellsPlain();
    SecondRowTags();
  }

  /** The text imports as two contacts, holding the tags `ta` and `tb`. */
  predicate ImportsTagged(text: string, ta: seq<string>, tb: seq<string>) {
    var r := ParseCsv(text);
    r.Parsed? && |r.contacts| == 2
    && "tags" in r.contacts[0] && r.contacts[0]["tags"] == TagList(ta)
    && "tags" in r.contacts[1] && r.contacts[1]["tags"] == TagList(tb)
  }

  /** Such a header row and two such data rows: two contacts, each holding its row's tags. */
  lemma ThreeRowImport(h: seq<string>, a: seq<string>, b: seq<string>, ta: seq<string>, tb: seq<string>)
    requires TagsHeaderRow(h) && TaggedRow(a, ta) && TaggedRow(b, tb)
    ensures ImportsTagged(Join([Join(h, ','), Join(a, ','), Join(b, ',')], '\n'), ta, tb)
  {
    var text := Join([Join(h, ','), Join(a, ','), Join(b, ',')], '\n');
    ThreeRowsKept(h, a, b);
    ParsedContacts(text);
    var headers := Headers(Join(h, ','));
    FifthHeader(h, "tags");
    PlainRow(a);
    PlainRow(b);
    TagsOfRow(headers, a, 0, ta);
    TagsOfRow(headers, b, 1, tb);
  }

  /** The downloadable template imports as two contacts, tagged ["Gosta de Frango", "VIP"] and ["Vegetarianos"]. */
  lemma TemplateImports()
    ensures ImportsTagged(TemplateText(), ["Gosta de Frango", "VIP"], ["Vegetarianos"])
  {
    TemplateHeaderRow();
    TemplateFirstRowTagged();
    TemplateSecondRowTagged();
    ThreeRowImport(TemplateHeader, TemplateFirstRow, TemplateSecondRow, ["Gosta de Frango", "VIP"], ["Vegetarianos"]);
  }
}
