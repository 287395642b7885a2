/** CSV text: two printers of the same language and the parser that reads it back.
  *
  * Cells are text; turning a parsed cell into a number or a boolean comes after. */
module Csv {
  import opened Options

  type Cell = string
  type Row = seq<Cell>
  type Table = seq<Row>

  // ---------------------------------------------------------------- printing

  predicate NeedsQuotes(cell: Cell) {
    '"' in cell || ',' in cell || '\n' in cell || '\r' in cell
  }

  function DoubleQuotes(cell: Cell): string {
    if cell == "" then ""
    else (if cell[0] == '"' then "\"\"" else [cell[0]]) + DoubleQuotes(cell[1..])
  }

  function EscapeCell(cell: Cell): string {
    if NeedsQuotes(cell) then "\"" + DoubleQuotes(cell) + "\"" else cell
  }

  function JoinCells(row: Row): string {
    if row == [] then ""
    else if |row| == 1 then EscapeCell(row[0])
    else EscapeCell(row[0]) + "," + JoinCells(row[1..])
  }

  function JoinLines(lines: seq<string>): string {
    if lines == [] then ""
    else if |lines| == 1 then lines[0]
    else lines[0] + "\n" + JoinLines(lines[1..])
  }

  function Lines(table: Table): seq<string> {
    if table == [] then [] else [JoinCells(table[0])] + Lines(table[1..])
  }

  /** Rows joined by line feeds, and one line feed at the end. */
  function Print(table: Table): string {
    JoinLines(Lines(table)) + "\n"
  }

  /** A query result: the column names, then the rows. */
  function PrintResult(columns: Row, rows: Table): string {
    Print([columns] + rows)
  }

  // ---------------------------------------------------------------- previews

  /** A preview's row: a list of cells, a record by column name, or something else, which is skipped.
    * An absent cell prints as the empty text. */
  datatype PreviewRow = Listed(cells: seq<Option<Cell>>) | Recorded(fields: map<string, Option<Cell>>) | Skipped

  function TextOf(value: Option<Cell>): Cell { if value.Some? then value.value else "" }

  function TextsOf(values: seq<Option<Cell>>): Row {
    if values == [] then [] else [TextOf(values[0])] + TextsOf(values[1..])
  }

  function FieldsOf(columns: Row, fields: map<string, Option<Cell>>): Row {
    if columns == [] then []
    else [if columns[0] in fields then TextOf(fields[columns[0]]) else ""] + FieldsOf(columns[1..], fields)
  }

  function RowOf(columns: Row, row: PreviewRow): Table {
    match row
    case Listed(cells) => [TextsOf(cells)]
    case Recorded(fields) => [FieldsOf(columns, fields)]
    case Skipped => []
  }

  function RowsOf(columns: Row, rows: seq<PreviewRow>): Table {
    if rows == [] then [] else RowOf(columns, rows[0]) + RowsOf(columns, rows[1..])
  }

  /** The column names that are text; a non-text name is dropped. */
  function TextColumns(columns: seq<Option<string>>): Row {
    if columns == [] then []
    else (if columns[0].Some? then [columns[0].value] else []) + TextColumns(columns[1..])
  }

  // ---------------------------------------------------------------- parsing

  /** What the parser holds after some characters. */
  datatype State = State(rows: Table, row: Row, cell: Cell, inQuotes: bool)

  const START := State([], [], "", false)

  /** Read `text` from `state`; a character may be read together with the one after it. */
  function Scan(state: State, text: string): State
    decreases |text|
  {
    if text == "" then state
    else
      var ch := text[0];
      var next := if |text| > 1 then Some(text[1]) else None;
      if ch == '"' && state.inQuotes && next == Some('"') then
        Scan(state.(cell := state.cell + ['"']), text[2..])
      else if ch == '"' then Scan(state.(inQuotes := !state.inQuotes), text[1..])
      else if ch == ',' && !state.inQuotes then Scan(state.(row := state.row + [state.cell], cell := ""), text[1..])
      else if (ch == '\n' || ch == '\r') && !state.inQuotes then
        var rest := if ch == '\r' && next == Some('\n') then text[2..] else text[1..];
        Scan(State(state.rows + [state.row + [state.cell]], [], "", false), rest)
      else Scan(state.(cell := state.cell + [ch]), text[1..])
  }

  /** The last line counts even without its line end; an empty text gives the one cell `value`. */
  function Finish(state: State): Table {
    var rows := if state.cell != "" || state.row != [] then state.rows + [state.row + [state.cell]] else state.rows;
    if rows != [] then rows else [["value"]]
  }

  function Parse(text: string): Table { Finish(Scan(START, text)) }

  // ---------------------------------------------------------------- the methods

  /** `csvToSheetData` before cell coercion. */
  method CsvToSheetData(text: string) returns (table: Table)
    ensures table == Parse(text)
  {
    var rows: Table, row: Row, cell: Cell, inQuotes := [], [], "", false;
    var index := 0;
    while index < |text|
      invariant 0 <= index <= |text|
      invariant Scan(State(rows, row, cell, inQuotes), text[index..]) == Scan(START, text)
    {
      var rest := text[index..];
      var ch := text[index];
      var next := if index + 1 < |text| then Some(text[index + 1]) else None;
      assert rest[1..] == text[index + 1..];
      assert |rest| > 1 ==> rest[2..] == text[index + 2..];
      if ch == '"' && inQuotes && next == Some('"') {
        cell := cell + ['"'];
        index := index + 2;
        continue;
      }
      if ch == '"' {
        inQuotes := !inQuotes;
        index := index + 1;
        continue;
      }
      if ch == ',' && !inQuotes {
        row := row + [cell];
        cell := "";
        index := index + 1;
        continue;
      }
      if (ch == '\n' || ch == '\r') && !inQuotes {
        if ch == '\r' && next == Some('\n') {
          index := index + 1;
        }
        row := row + [cell];
        rows := rows + [row];
        row := [];
        cell := "";
        index := index + 1;
        continue;
      }
      cell := cell + [ch];
      index := index + 1;
    }
    if |cell| > 0 || |row| > 0 {
      row := row + [cell];
      rows := rows + [row];
    }
    table := if |rows| > 0 then rows else [["value"]];
  }

  /** `previewCsv`: nothing when no column name is text. */
  method PreviewCsv(columns: seq<Option<string>>, rows: seq<PreviewRow>) returns (csv: Option<string>)
    ensures csv == (if TextColumns(columns) == [] then None
                    else Some(PrintResult(TextColumns(columns), RowsOf(TextColumns(columns), rows))))
  {
    hide JoinCells, FieldsOf, TextsOf, TextColumns;
    var texts := TextColumns(columns);
    if texts == [] {
      return None;
    }
    var lines := [JoinCells(texts)];
    for k := 0 to |rows|
      invariant lines == [JoinCells(texts)] + Lines(RowsOf(texts, rows[..k]))
    {
      assert rows[..k + 1] == rows[..k] + [rows[k]];
      RowsOfAppend(texts, rows[..k], rows[k]);
      LinesAppend(RowsOf(texts, rows[..k]), RowOf(texts, rows[k]));
      match rows[k]
      case Listed(cells) => lines := lines + [JoinCells(TextsOf(cells))];
      case Recorded(fields) => lines := lines + [JoinCells(FieldsOf(texts, fields))];
      case Skipped =>
    }
    assert rows[..|rows|] == rows;
    assert ([texts] + RowsOf(texts, rows))[1..] == RowsOf(texts, rows);
    csv := Some(JoinLines(lines) + "\n");
  }

  lemma {:induction false} RowsOfAppend(columns: Row, rows: seq<PreviewRow>, row: PreviewRow)
    ensures RowsOf(columns, rows + [row]) == RowsOf(columns, rows) + RowOf(columns, row)
  {
    if rows == [] {
      assert rows + [row] == [row] && [row][1..] == [];
    } else {
      assert (rows + [row])[1..] == rows[1..] + [row];
      RowsOfAppend(columns, rows[1..], row);
    }
  }

  lemma {:induction false} LinesAppend(a: Table, b: Table)
    ensures Lines(a + b) == Lines(a) + Lines(b)
  {
    if a == [] {
      assert a + b == b;
    } else {
      assert (a + b)[1..] == a[1..] + b;
      LinesAppend(a[1..], b);
    }
  }

  // ---------------------------------------------------------------- every text as written cells

  /** A run of characters of a cell, as it is or in quotes. */
  datatype Piece = Plain(text: string) | Quoted(text: string)

  /** A cell as it can be written: the printer uses at most one piece, other writers may use several. */
  type Writing = seq<Piece>

  /** A line with its own line end. */
  datatype Line = Line(cells: seq<Writing>, end: string)

  function PieceText(piece: Piece): string {
    if piece.Plain? then piece.text else "\"" + DoubleQuotes(piece.text) + "\""
  }

  function Written(cell: Writing): string { if cell == [] then "" else PieceText(cell[0]) + Written(cell[1..]) }

  function Content(cell: Writing): Cell { if cell == [] then "" else cell[0].text + Content(cell[1..]) }

  function WrittenCells(cells: seq<Writing>): string {
    if cells == [] then ""
    else if |cells| == 1 then Written(cells[0])
    else Written(cells[0]) + "," + WrittenCells(cells[1..])
  }

  function Contents(cells: seq<Writing>): Row {
    if cells == [] then [] else [Content(cells[0])] + Contents(cells[1..])
  }

  function Rendered(lines: seq<Line>): string {
    if lines == [] then "" else WrittenCells(lines[0].cells) + lines[0].end + Rendered(lines[1..])
  }

  /** A plain piece has characters and no special ones; quoted pieces do not meet, as their quotes would double. */
  ghost predicate Proper(cell: Writing) {
    && (forall i :: 0 <= i < |cell| && cell[i].Plain? ==> cell[i].text != "" && !NeedsQuotes(cell[i].text))
    && (forall i :: 0 <= i < |cell| - 1 ==> cell[i].Plain? || cell[i + 1].Plain?)
  }

  predicate IsLineEnd(end: string) { end == "\n" || end == "\r" || end == "\r\n" }

  ghost predicate ProperCells(cells: seq<Writing>) {
    cells != [] && forall i :: 0 <= i < |cells| ==> Proper(cells[i])
  }

  /** Every line has cells and a line end, but the last may be without one. */
  ghost predicate ProperLines(lines: seq<Line>) {
    forall i :: 0 <= i < |lines| ==>
      ProperCells(lines[i].cells) && (IsLineEnd(lines[i].end) || (i == |lines| - 1 && lines[i].end == ""))
  }

  /** The table the lines stand for. */
  function Rows(lines: seq<Line>): Table {
    if lines == [] then [] else [Contents(lines[0].cells)] + Rows(lines[1..])
  }

  // ---------------------------------------------------------------- reading back one cell

  /** Text without special characters is read into the current cell. */
  lemma {:induction false} ScanPlain(state: State, cell: Cell, rest: string)
    requires !state.inQuotes && !NeedsQuotes(cell)
    ensures Scan(state, cell + rest) == Scan(state.(cell := state.cell + cell), rest)
    decreases cell
  {
    if cell == "" {
      assert cell + rest == rest && state.cell + cell == state.cell;
    } else {
      assert (cell + rest)[1..] == cell[1..] + rest;
      assert cell[0] in cell;
      assert forall c :: c in cell[1..] ==> c in cell;
      ScanPlain(state.(cell := state.cell + [cell[0]]), cell[1..], rest);
      assert state.cell + [cell[0]] + cell[1..] == state.cell + cell;
    }
  }

  lemma ScanOneDoubled(state: State, c: char, tail: string)
    requires state.inQuotes
    ensures Scan(state, (if c == '"' then "\"\"" else [c]) + tail) == Scan(state.(cell := state.cell + [c]), tail)
  {
  }

  lemma DoubledFirst(cell: Cell, rest: string)
    requires cell != ""
    ensures DoubleQuotes(cell) + rest
            == (if cell[0] == '"' then "\"\"" else [cell[0]]) + (DoubleQuotes(cell[1..]) + rest)
  {
  }

  lemma OneThenRest(state: State, cell: Cell)
    requires cell != ""
    ensures state.(cell := state.cell + [cell[0]]).(cell := state.cell + [cell[0]] + cell[1..])
            == state.(cell := state.cell + cell)
  {
  }

  /** Inside quotes, doubled quotes come back as one and everything else as itself. */
  lemma {:induction false} ScanDoubled(state: State, cell: Cell, rest: string)
    requires state.inQuotes
    ensures Scan(state, DoubleQuotes(cell) + rest) == Scan(state.(cell := state.cell + cell), rest)
    decreases cell
  {
    if cell == "" {
      assert DoubleQuotes(cell) + rest == rest && state.cell + cell == state.cell;
    } else {
      hide *;
      DoubledFirst(cell, rest);
      ScanOneDoubled(state, cell[0], DoubleQuotes(cell[1..]) + rest);
      ScanDoubled(state.(cell := state.cell + [cell[0]]), cell[1..], rest);
      OneThenRest(state, cell);
    }
  }

  /** What may follow a quoted piece: anything but a quote. */
  predicate Boundary(rest: string) { rest == "" || rest[0] != '"' }

  lemma ScanPiece(state: State, piece: Piece, rest: string)
    requires !state.inQuotes && (piece.Plain? ==> !NeedsQuotes(piece.text)) && (piece.Quoted? ==> Boundary(rest))
    ensures Scan(state, PieceText(piece) + rest) == Scan(state.(cell := state.cell + piece.text), rest)
  {
    if piece.Plain? {
      ScanPlain(state, piece.text, rest);
    } else {
      var body := DoubleQuotes(piece.text) + ("\"" + rest);
      assert PieceText(piece) + rest == "\"" + body;
      assert ("\"" + body)[1..] == body;
      ScanDoubled(state.(inQuotes := true), piece.text, "\"" + rest);
      assert ("\"" + rest)[1..] == rest;
    }
  }

  lemma WrittenFirst(cell: Writing, rest: string)
    requires cell != []
    ensures Written(cell) + rest == PieceText(cell[0]) + (Written(cell[1..]) + rest)
    ensures Content(cell) == cell[0].text + Content(cell[1..])
  {
  }

  /** What follows a quoted piece does not start with a quote. */
  lemma AfterPiece(cell: Writing, rest: string)
    requires Proper(cell) && Boundary(rest) && cell != [] && cell[0].Quoted?
    ensures Boundary(Written(cell[1..]) + rest)
  {
    if |cell| > 1 {
      WrittenFirst(cell[1..], rest);
      assert cell[1..][0] == cell[1] && cell[1].Plain?;
      assert cell[1].text[0] in cell[1].text;
    } else {
      assert Written(cell[1..]) == "";
    }
  }

  lemma ProperRest(cell: Writing)
    requires Proper(cell) && cell != []
    ensures Proper(cell[1..]) && (cell[0].Plain? ==> cell[0].text != "" && !NeedsQuotes(cell[0].text))
  {
  }

  lemma CellGrows(state: State, a: string, b: string)
    ensures state.(cell := state.cell + a).(cell := state.cell + a + b) == state.(cell := state.cell + (a + b))
  {
    assert state.cell + a + b == state.cell + (a + b);
  }

  lemma NoPieces(state: State, rest: string)
    ensures Written([]) + rest == rest && state.(cell := state.cell + Content([])) == state
  {
    assert state.cell + "" == state.cell;
  }

  /** A cell, however it is written, is read as its content. */
  lemma {:induction false} ScanCell(state: State, cell: Writing, rest: string)
    requires !state.inQuotes && Proper(cell) && Boundary(rest)
    ensures Scan(state, Written(cell) + rest) == Scan(state.(cell := state.cell + Content(cell)), rest)
    decreases |cell|
  {
    if cell == [] {
      NoPieces(state, rest);
    } else {
      hide *;
      WrittenFirst(cell, rest);
      ProperRest(cell);
      if cell[0].Quoted? { AfterPiece(cell, rest); }
      ScanPiece(state, cell[0], Written(cell[1..]) + rest);
      ScanCell(state.(cell := state.cell + cell[0].text), cell[1..], rest);
      CellGrows(state, cell[0].text, Content(cell[1..]));
    }
  }

  // ---------------------------------------------------------------- reading back one line

  lemma ScanComma(state: State, cell: Cell, tail: string)
    requires !state.inQuotes
    ensures Scan(state.(cell := cell), "," + tail) == Scan(State(state.rows, state.row + [cell], "", false), tail)
  {
    assert ("," + tail)[1..] == tail;
  }

  lemma JoinFirst(cells: seq<Writing>, rest: string)
    requires |cells| > 1
    ensures WrittenCells(cells) + rest == Written(cells[0]) + ("," + (WrittenCells(cells[1..]) + rest))
  {
    hide Written;
  }

  /** The row and cell being read, once the cells of a row have been. */
  function Reached(state: State, row: Row): State
    requires row != []
  {
    State(state.rows, state.row + row[..|row| - 1], row[|row| - 1], false)
  }

  lemma ReachedStep(state: State, row: Row)
    requires row != []
    ensures |row| == 1 && !state.inQuotes ==> Reached(state, row) == state.(cell := row[0])
    ensures |row| > 1 ==> Reached(State(state.rows, state.row + [row[0]], "", false), row[1..]) == Reached(state, row)
  {
  }

  lemma ContentsStep(cells: seq<Writing>)
    requires cells != []
    ensures |Contents(cells)| == |cells| && Contents(cells)[0] == Content(cells[0])
    ensures Contents(cells)[1..] == Contents(cells[1..])
  {
    ContentsLength(cells);
  }

  lemma NothingBefore(cell: Cell)
    ensures "" + cell == cell
  {
  }

  lemma {:induction false} ContentsLength(cells: seq<Writing>)
    ensures |Contents(cells)| == |cells| && forall i :: 0 <= i < |cells| ==> Contents(cells)[i] == Content(cells[i])
  {
    if cells != [] { ContentsLength(cells[1..]); }
  }

  /** The cells of a line are read into the current row, the last into the current cell. */
  lemma {:induction false} ScanCells(state: State, cells: seq<Writing>, rest: string)
    requires !state.inQuotes && state.cell == "" && ProperCells(cells) && Boundary(rest)
    ensures Contents(cells) != []
    ensures Scan(state, WrittenCells(cells) + rest) == Scan(Reached(state, Contents(cells)), rest)
    decreases |cells|
  {
    ContentsStep(cells);
    ReachedStep(state, Contents(cells));
    NothingBefore(Content(cells[0]));
    if |cells| == 1 {
      assert Proper(cells[0]) && WrittenCells(cells) == Written(cells[0]);
      hide *;
      ScanCell(state, cells[0], rest);
    } else {
      var tail := WrittenCells(cells[1..]) + rest;
      JoinFirst(cells, rest);
      assert Boundary("," + tail) && ProperCells(cells[1..]) && Proper(cells[0]);
      hide *;
      ScanCell(state, cells[0], "," + tail);
      ScanComma(state, Content(cells[0]), tail);
      ScanCells(State(state.rows, state.row + [Content(cells[0])], "", false), cells[1..], rest);
    }
  }

  /** A line end closes the row; a line feed right after a carriage return belongs to it. */
  lemma ScanLineEnd(state: State, end: string, rest: string)
    requires !state.inQuotes && IsLineEnd(end) && (end == "\r" && rest != "" ==> rest[0] != '\n')
    ensures Scan(state, end + rest) == Scan(State(state.rows + [state.row + [state.cell]], [], "", false), rest)
  {
    assert (end + rest)[|end|..] == rest;
  }

  /** What has been read once the text ends. */
  function Closed(state: State): Table {
    if state.cell != "" || state.row != [] then state.rows + [state.row + [state.cell]] else state.rows
  }

  lemma ReachedWhole(state: State, row: Row)
    requires row != [] && state.row == []
    ensures Reached(state, row).rows == state.rows && Reached(state, row).row + [Reached(state, row).cell] == row
    ensures Closed(Reached(state, row)) == state.rows + if row == [""] then [] else [row]
  {
    if |row| == 1 { assert row == [row[0]]; }
  }

  lemma ScanNothing(state: State)
    ensures Scan(state, "") == state
  {
  }

  lemma BoundaryAtEnd(end: string, rest: string)
    ensures Boundary("") && (IsLineEnd(end) ==> Boundary(end + rest))
  {
  }

  /** A line, read with its line end, is added to the rows. */
  lemma ScanRow(state: State, cells: seq<Writing>, end: string, rest: string)
    requires !state.inQuotes && state.cell == "" && state.row == [] && ProperCells(cells)
    requires IsLineEnd(end) && (end == "\r" && rest != "" ==> rest[0] != '\n')
    ensures Scan(state, WrittenCells(cells) + end + rest)
            == Scan(State(state.rows + [Contents(cells)], [], "", false), rest)
  {
    assert WrittenCells(cells) + end + rest == WrittenCells(cells) + (end + rest);
    BoundaryAtEnd(end, rest);
    ScanCells(state, cells, end + rest);
    ReachedWhole(state, Contents(cells));
    ScanLineEnd(Reached(state, Contents(cells)), end, rest);
    hide Scan, WrittenCells, Contents;
  }

  // ---------------------------------------------------------------- reading back whole texts

  /** A carriage return and the line feed of an empty line after it, which read as one line end. */
  predicate Joins(lines: seq<Line>, i: nat) {
    i + 1 < |lines| && lines[i].end == "\r" && lines[i + 1] == Line([[]], "\n")
  }

  /** A last line of one empty cell and no line end is no line. */
  predicate Vanishes(lines: seq<Line>) {
    lines != [] && Contents(lines[|lines| - 1].cells) == [""] && lines[|lines| - 1].end == ""
  }

  /** The rows that read back. */
  function Kept(lines: seq<Line>): Table {
    if lines == [] || (|lines| == 1 && Vanishes(lines)) then []
    else if Joins(lines, 0) then [Contents(lines[0].cells)] + Kept(lines[2..])
    else [Contents(lines[0].cells)] + Kept(lines[1..])
  }

  lemma FirstOf(cell: Cell)
    ensures cell == "" || cell[0] in cell
  {
  }

  /** A line begins with a line feed only if it is the empty cell before one. */
  lemma LineStart(cells: seq<Writing>, rest: string)
    requires ProperCells(cells) && WrittenCells(cells) + rest != "" && (WrittenCells(cells) + rest)[0] == '\n'
    ensures cells == [[]] && rest != "" && rest[0] == '\n'
  {
    assert Proper(cells[0]);
    if cells[0] != [] {
      WrittenFirst(cells[0], "");
      FirstOf(cells[0][0].text);
    } else {
      assert Written(cells[0]) == "";
    }
  }

  lemma RenderedStart(lines: seq<Line>)
    requires ProperLines(lines) && lines != [] && Rendered(lines) != "" && Rendered(lines)[0] == '\n'
    ensures lines != [] && lines[0] == Line([[]], "\n")
  {
    RenderedFirst(lines);
    ProperFirst(lines);
    hide *;
    LineStart(lines[0].cells, lines[0].end + Rendered(lines[1..]));
    FeedFirst(lines[0].end, Rendered(lines[1..]));
  }

  lemma RenderedFirst(lines: seq<Line>)
    requires lines != []
    ensures Rendered(lines) == WrittenCells(lines[0].cells) + (lines[0].end + Rendered(lines[1..]))
    ensures |lines| == 1 ==> Rendered(lines[1..]) == ""
  {
    hide WrittenCells;
  }

  lemma ProperFirst(lines: seq<Line>)
    requires lines != [] && ProperLines(lines)
    ensures ProperCells(lines[0].cells) && (IsLineEnd(lines[0].end) || (lines[0].end == "" && |lines| == 1))
  {
  }

  lemma FeedFirst(end: string, rest: string)
    requires IsLineEnd(end) || (end == "" && rest == "")
    requires end + rest != "" && (end + rest)[0] == '\n'
    ensures end == "\n"
  {
  }

  lemma ProperLater(lines: seq<Line>, n: nat)
    requires ProperLines(lines) && n <= |lines|
    ensures ProperLines(lines[n..])
  {
  }

  lemma OneLine(lines: seq<Line>)
    requires |lines| == 1 && lines[0].end == ""
    ensures Rendered(lines) == WrittenCells(lines[0].cells) + ""
    ensures Kept(lines) == if Contents(lines[0].cells) == [""] then [] else [Contents(lines[0].cells)]
  {
    hide WrittenCells, Contents;
    assert Rendered(lines[1..]) == "" && Kept(lines[1..]) == [];
  }

  /** The last line, without a line end. */
  lemma ScanLast(state: State, lines: seq<Line>)
    requires !state.inQuotes && state.cell == "" && state.row == []
    requires |lines| == 1 && ProperCells(lines[0].cells) && lines[0].end == ""
    ensures Closed(Scan(state, Rendered(lines))) == state.rows + Kept(lines)
  {
    hide *;
    OneLine(lines);
    BoundaryAtEnd("", "");
    ScanCells(state, lines[0].cells, "");
    ReachedWhole(state, Contents(lines[0].cells));
    ScanNothing(Reached(state, Contents(lines[0].cells)));
  }

  lemma JoinedRest(lines: seq<Line>)
    requires Joins(lines, 0)
    ensures Rendered(lines[1..]) == "\n" + Rendered(lines[2..])
  {
    assert lines[1..][1..] == lines[2..] && lines[1..][0] == Line([[]], "\n");
    assert WrittenCells([[]]) == Written([]) == "";
  }

  /** A line whose carriage return takes the line feed of the empty line after it. */
  lemma ScanJoined(state: State, lines: seq<Line>)
    requires !state.inQuotes && state.cell == "" && state.row == []
    requires Joins(lines, 0) && ProperCells(lines[0].cells)
    ensures Scan(state, Rendered(lines))
            == Scan(State(state.rows + [Contents(lines[0].cells)], [], "", false), Rendered(lines[2..]))
  {
    var first, later := WrittenCells(lines[0].cells), Rendered(lines[2..]);
    JoinedRest(lines);
    assert first + "\r" + ("\n" + later) == first + "\r\n" + later;
    ScanRow(state, lines[0].cells, "\r\n", later);
    hide Scan, WrittenCells;
  }

  lemma ScanLine(state: State, lines: seq<Line>)
    requires !state.inQuotes && state.cell == "" && state.row == [] && lines != [] && ProperLines(lines)
    requires lines[0].end != "" && !Joins(lines, 0)
    ensures Scan(state, Rendered(lines))
            == Scan(State(state.rows + [Contents(lines[0].cells)], [], "", false), Rendered(lines[1..]))
  {
    var others := Rendered(lines[1..]);
    ProperLater(lines, 1);
    assert |lines| == 1 ==> others == "";
    if others != "" && others[0] == '\n' { RenderedStart(lines[1..]); }
    ScanRow(state, lines[0].cells, lines[0].end, others);
    hide Scan, WrittenCells, ProperCells;
  }

  lemma KeptStep(lines: seq<Line>)
    requires lines != [] && ProperLines(lines)
    ensures ProperCells(lines[0].cells)
    ensures lines[0].end == "" ==> |lines| == 1
    ensures Joins(lines, 0) ==> |lines| >= 2 && Kept(lines) == [Contents(lines[0].cells)] + Kept(lines[2..])
    ensures lines[0].end != "" && !Joins(lines, 0) ==> Kept(lines) == [Contents(lines[0].cells)] + Kept(lines[1..])
  {
  }

  /** From between two lines, a text leaves these rows. */
  ghost predicate Leaves(rows: Table, text: string, table: Table) {
    Closed(Scan(State(rows, [], "", false), text)) == rows + table
  }

  lemma Leave(rows: Table, text: string, table: Table)
    requires Closed(Scan(State(rows, [], "", false), text)) == rows + table
    ensures Leaves(rows, text, table)
  {
  }

  lemma OneMore(rows: Table, row: Row, text: string, later: string, table: Table)
    requires Scan(State(rows, [], "", false), text) == Scan(State(rows + [row], [], "", false), later)
    requires Leaves(rows + [row], later, table)
    ensures Leaves(rows, text, [row] + table)
  {
    hide Scan, Closed;
    assert rows + [row] + table == rows + ([row] + table);
  }

  lemma {:induction false} ScanRendered(rows: Table, lines: seq<Line>)
    requires ProperLines(lines)
    ensures Leaves(rows, Rendered(lines), Kept(lines))
    decreases |lines|
  {
    if lines == [] {
      assert rows + [] == rows;
    } else {
      hide *;
      KeptStep(lines);
      ProperLater(lines, 1);
      var state, row := State(rows, [], "", false), Contents(lines[0].cells);
      if lines[0].end == "" {
        ScanLast(state, lines);
        Leave(rows, Rendered(lines), Kept(lines));
      } else if Joins(lines, 0) {
        ProperLater(lines, 2);
        ScanJoined(state, lines);
        ScanRendered(rows + [row], lines[2..]);
        OneMore(rows, row, Rendered(lines), Rendered(lines[2..]), Kept(lines[2..]));
      } else {
        ScanLine(state, lines);
        ScanRendered(rows + [row], lines[1..]);
        OneMore(rows, row, Rendered(lines), Rendered(lines[1..]), Kept(lines[1..]));
      }
    }
  }

  /** Every line is a line of its own. */
  ghost predicate AllLines(lines: seq<Line>) {
    !Vanishes(lines) && forall i: nat :: !Joins(lines, i)
  }

  lemma AllLinesStep(lines: seq<Line>)
    requires lines != [] && !(|lines| == 1 && Vanishes(lines))
    ensures AllLines(lines) <==> !Joins(lines, 0) && AllLines(lines[1..])
  {
    assert Vanishes(lines) <==> Vanishes(lines[1..]);
    assert forall i: nat :: Joins(lines[1..], i) <==> Joins(lines, i + 1);
    hide Vanishes;
    if AllLines(lines[1..]) && !Joins(lines, 0) {
      forall i: nat ensures !Joins(lines, i) {
        assert i > 0 ==> !Joins(lines[1..], i - 1);
      }
    }
  }

  lemma {:induction false} KeptAll(lines: seq<Line>)
    ensures |Kept(lines)| <= |lines| == |Rows(lines)|
    ensures Kept(lines) == Rows(lines) <==> AllLines(lines)
    ensures |Kept(lines)| == |lines| ==> Kept(lines) == Rows(lines)
    decreases |lines|
  {
    RowsLength(lines);
    if lines != [] && !(|lines| == 1 && Vanishes(lines)) {
      AllLinesStep(lines);
      hide AllLines, Vanishes, Contents;
      if Joins(lines, 0) {
        KeptAll(lines[2..]);
      } else {
        KeptAll(lines[1..]);
        assert Rows(lines)[1..] == Rows(lines[1..]);
      }
    }
  }

  lemma {:induction false} RowsLength(lines: seq<Line>)
    ensures |Rows(lines)| == |lines|
  {
    if lines != [] { RowsLength(lines[1..]); }
  }

  /** However the cells are quoted and whatever line ends there are, in any mixture and with or without one at the end,
    * the rows parse to the contents of the cells, except that a carriage return and the line feed of an empty line
    * after it are one line end, and that an empty last line needs a line end to be one. */
  lemma ParseWritten(lines: seq<Line>)
    requires ProperLines(lines) && lines != []
    ensures Parse(Rendered(lines)) == Rows(lines) <==> !Vanishes(lines) && forall i: nat :: !Joins(lines, i)
    ensures Parse(Rendered(lines)) == if Kept(lines) == [] then [["value"]] else Kept(lines)
  {
    ScanRendered([], lines);
    KeptAll(lines);
    assert [] + Kept(lines) == Kept(lines);
    hide Scan, Rendered, Kept, Rows;
    if Kept(lines) == [] { NothingKept(lines); }
  }

  lemma NothingKept(lines: seq<Line>)
    requires lines != [] && Kept(lines) == []
    ensures Rows(lines) == [[""]]
  {
    assert lines[1..] == [];
  }

  // ---------------------------------------------------------------- printed tables

  /** A printed cell is one piece, and one without characters none. */
  function WritingOf(cell: Cell): Writing {
    if NeedsQuotes(cell) then [Quoted(cell)] else if cell == "" then [] else [Plain(cell)]
  }

  function WritingsOf(row: Row): seq<Writing> {
    if row == [] then [] else [WritingOf(row[0])] + WritingsOf(row[1..])
  }

  /** A printed table as lines with the line ends it is given. */
  function LinesOf(table: Table, ends: seq<string>): seq<Line>
    requires |ends| == |table|
  {
    if table == [] then [] else [Line(WritingsOf(table[0]), ends[0])] + LinesOf(table[1..], ends[1..])
  }

  /** A table printed with a line end of its own after each row. */
  function PrintedWith(table: Table, ends: seq<string>): string
    requires |ends| == |table|
  {
    if table == [] then "" else JoinCells(table[0]) + ends[0] + PrintedWith(table[1..], ends[1..])
  }

  lemma WritingIsProper(cell: Cell)
    ensures Proper(WritingOf(cell)) && Written(WritingOf(cell)) == EscapeCell(cell) && Content(WritingOf(cell)) == cell
    ensures WritingOf(cell) == [] <==> cell == ""
  {
    var w := WritingOf(cell);
    if w != [] {
      assert w[1..] == [] && Written([]) == "" && Content([]) == "";
      assert PieceText(w[0]) + "" == PieceText(w[0]) && w[0].text + "" == w[0].text;
    }
  }

  lemma {:induction false} WritingsAre(row: Row)
    ensures |WritingsOf(row)| == |row| && Contents(WritingsOf(row)) == row
    ensures forall i :: 0 <= i < |row| ==> WritingsOf(row)[i] == WritingOf(row[i])
    ensures WrittenCells(WritingsOf(row)) == JoinCells(row)
  {
    if row != [] {
      hide WritingOf, Content, Written, EscapeCell;
      WritingIsProper(row[0]);
      WritingsAre(row[1..]);
      assert WritingsOf(row)[1..] == WritingsOf(row[1..]);
    }
  }

  lemma WritingsAreProper(row: Row)
    requires row != []
    ensures ProperCells(WritingsOf(row)) && (WritingsOf(row) == [[]] <==> row == [""])
  {
    WritingsAre(row);
    forall i | 0 <= i < |row| ensures Proper(WritingsOf(row)[i]) && (WritingsOf(row)[i] == [] <==> row[i] == "") {
      WritingIsProper(row[i]);
    }
    hide Proper, WritingsOf, WritingOf;
  }

  lemma {:induction false} LinesAre(table: Table, ends: seq<string>)
    requires |ends| == |table|
    ensures |LinesOf(table, ends)| == |table|
    ensures forall i :: 0 <= i < |table| ==> LinesOf(table, ends)[i] == Line(WritingsOf(table[i]), ends[i])
    ensures Rows(LinesOf(table, ends)) == table && Rendered(LinesOf(table, ends)) == PrintedWith(table, ends)
  {
    if table != [] {
      LinesAre(table[1..], ends[1..]);
      WritingsAre(table[0]);
      hide WritingsOf, JoinCells, WrittenCells, Contents;
      assert LinesOf(table, ends)[1..] == LinesOf(table[1..], ends[1..]);
    }
  }

  ghost predicate NoEmptyRow(table: Table) {
    forall i :: 0 <= i < |table| ==> table[i] != []
  }

  /** Tables the language can express: at least one row, and no row without cells. */
  ghost predicate Printable(table: Table) { table != [] && NoEmptyRow(table) }

  /** Every row has a line end, but the last may be without. */
  ghost predicate Ended(table: Table, ends: seq<string>) {
    && |ends| == |table|
    && forall i :: 0 <= i < |ends| ==> IsLineEnd(ends[i]) || (i == |ends| - 1 && ends[i] == "")
  }

  /** An empty row printed after a carriage return, whose line feed ends the line before it. */
  predicate FeedTaken(table: Table, ends: seq<string>, i: nat)
    requires |ends| == |table|
  {
    i + 1 < |table| && ends[i] == "\r" && table[i + 1] == [""] && ends[i + 1] == "\n"
  }

  lemma JoinsIff(table: Table, ends: seq<string>, i: nat)
    requires |ends| == |table| && NoEmptyRow(table)
    ensures Joins(LinesOf(table, ends), i) <==> FeedTaken(table, ends, i)
  {
    LinesAre(table, ends);
    if i + 1 < |table| { WritingsAreProper(table[i + 1]); }
    hide LinesOf, WritingsOf, ProperCells, Rows, Rendered, PrintedWith;
  }

  lemma LinesAreProper(table: Table, ends: seq<string>)
    requires Printable(table) && Ended(table, ends)
    ensures ProperLines(LinesOf(table, ends)) && LinesOf(table, ends) != []
    ensures Vanishes(LinesOf(table, ends)) <==> table[|table| - 1] == [""] && ends[|table| - 1] == ""
  {
    LinesAre(table, ends);
    forall i | 0 <= i < |table| ensures ProperCells(WritingsOf(table[i])) { WritingsAreProper(table[i]); }
    WritingsAre(table[|table| - 1]);
    hide LinesOf, WritingsOf, ProperCells, Rows, Rendered, PrintedWith, Contents, WrittenCells, JoinCells;
  }

  /** A table printed with any line ends, in any mixture and with or without one at the end, parses to itself, unless an
    * empty row follows a carriage return or ends the text without a line end. */
  lemma AnyLineEnds(table: Table, ends: seq<string>)
    requires Printable(table) && Ended(table, ends)
    ensures Parse(PrintedWith(table, ends)) == table <==>
            !(table[|table| - 1] == [""] && ends[|table| - 1] == "") && forall i: nat :: !FeedTaken(table, ends, i)
  {
    LinesAre(table, ends);
    LinesAreProper(table, ends);
    forall i: nat ensures Joins(LinesOf(table, ends), i) <==> FeedTaken(table, ends, i) { JoinsIff(table, ends, i); }
    ParseWritten(LinesOf(table, ends));
    hide *;
  }

  /** A cell is printed as it is exactly when it has no quote, comma or line end. */
  lemma PrintedAsItIs(cell: Cell)
    ensures EscapeCell(cell) == cell <==>
            forall i :: 0 <= i < |cell| ==> cell[i] != '"' && cell[i] != ',' && cell[i] != '\n' && cell[i] != '\r'
  {
    DoublingGrows(cell);
  }

  lemma {:induction false} DoublingGrows(cell: Cell)
    ensures |DoubleQuotes(cell)| >= |cell|
  {
    if cell != "" { DoublingGrows(cell[1..]); }
  }

  /** What a printed row reads back as: the row, or one empty cell if it had none. */
  function Filled(row: Row): Row { if row == [] then [""] else row }

  function FilledRows(table: Table): Table {
    if table == [] then [] else [Filled(table[0])] + FilledRows(table[1..])
  }

  /** A line feed after each row. */
  function LineFeeds(n: nat): seq<string> { seq(n, _ => "\n") }

  lemma NoCells()
    ensures JoinCells([]) == JoinCells([""]) == ""
  {
  }

  /** The printer ends each row, the last included, with a line feed. */
  lemma {:induction false} PrintIsRows(table: Table)
    requires table != []
    ensures |FilledRows(table)| == |table| && NoEmptyRow(FilledRows(table))
    ensures Print(table) == PrintedWith(FilledRows(table), LineFeeds(|table|))
  {
    NoCells();
    FilledSame(table);
    FilledStep(table);
    PrintStep(table);
    PrintedStep(FilledRows(table), LineFeeds(|table|));
    assert LineFeeds(|table|)[1..] == LineFeeds(|table| - 1);
    assert PrintedWith([], []) == "";
    if |table| > 1 { PrintIsRows(table[1..]); }
    hide Print, PrintedWith, JoinCells, FilledRows;
  }

  lemma FilledStep(table: Table)
    requires table != []
    ensures FilledRows(table) == [Filled(table[0])] + FilledRows(table[1..])
    ensures FilledRows(table)[1..] == FilledRows(table[1..]) && FilledRows([]) == []
  {
  }

  lemma PrintStep(table: Table)
    requires table != []
    ensures Print(table) == JoinCells(table[0]) + "\n" + (if |table| == 1 then "" else Print(table[1..]))
  {
    hide JoinCells;
    if |table| == 1 {
      assert Lines(table) == [JoinCells(table[0])];
    } else {
      assert Lines(table)[1..] == Lines(table[1..]);
    }
  }

  lemma PrintedStep(table: Table, ends: seq<string>)
    requires |ends| == |table| && table != []
    ensures PrintedWith(table, ends) == JoinCells(table[0]) + ends[0] + PrintedWith(table[1..], ends[1..])
  {
  }

  /** Reading back any printed table gives its rows, a row without cells as one empty cell, and the empty
    * table as one such row. */
  lemma ParsePrint(table: Table)
    ensures Parse(Print(table)) == (if table == [] then [[""]] else FilledRows(table))
  {
    if table == [] {
      NoCells();
      PrintIsRows([[""]]);
      AnyLineEnds([[""]], ["\n"]);
      assert Print([]) == "\n" == PrintedWith([[""]], ["\n"]);
    } else {
      PrintIsRows(table);
      AnyLineEnds(FilledRows(table), LineFeeds(|table|));
    }
  }

  lemma {:induction false} FilledSame(table: Table)
    ensures |FilledRows(table)| == |table|
    ensures FilledRows(table) == table <==> forall i :: 0 <= i < |table| ==> table[i] != []
  {
    if table != [] {
      FilledSame(table[1..]);
      assert table == [table[0]] + table[1..];
      if forall i :: 0 <= i < |table| ==> table[i] != [] {
        assert forall i :: 0 <= i < |table[1..]| ==> table[1..][i] == table[i + 1];
      }
      if FilledRows(table) == table {
        assert FilledRows(table)[0] == Filled(table[0]) && FilledRows(table)[1..] == table[1..];
      }
    }
  }

  /** Round trip: the parser returns exactly the printed cells, quotes, commas and line ends inside cells
    * included, for the printable tables and for no others. */
  lemma RoundTrip(table: Table)
    ensures Parse(Print(table)) == table <==> Printable(table)
  {
    ParsePrint(table);
    FilledSame(table);
  }

  /** Both printers are undone by the parser. */
  lemma ResultRoundTrip(columns: Row, rows: Table)
    requires columns != [] && forall i :: 0 <= i < |rows| ==> rows[i] != []
    ensures Parse(PrintResult(columns, rows)) == [columns] + rows
  {
    RoundTrip([columns] + rows);
  }

  lemma {:induction false} ScanNoEmptyRow(state: State, text: string)
    requires NoEmptyRow(state.rows)
    ensures NoEmptyRow(Scan(state, text).rows)
    decreases |text|
  {
    if text != "" {
      var ch := text[0];
      var next := if |text| > 1 then Some(text[1]) else None;
      if ch == '"' && state.inQuotes && next == Some('"') {
        ScanNoEmptyRow(state.(cell := state.cell + ['"']), text[2..]);
      } else if ch == '"' {
        ScanNoEmptyRow(state.(inQuotes := !state.inQuotes), text[1..]);
      } else if ch == ',' && !state.inQuotes {
        ScanNoEmptyRow(state.(row := state.row + [state.cell], cell := ""), text[1..]);
      } else if (ch == '\n' || ch == '\r') && !state.inQuotes {
        var rest := if ch == '\r' && next == Some('\n') then text[2..] else text[1..];
        ScanNoEmptyRow(State(state.rows + [state.row + [state.cell]], [], "", false), rest);
      } else {
        ScanNoEmptyRow(state.(cell := state.cell + [ch]), text[1..]);
      }
    }
  }

  /** Whatever the text, what was parsed prints to a text that parses to the same table. */
  lemma PrintAfterParse(text: string)
    ensures Printable(Parse(text))
    ensures Parse(Print(Parse(text))) == Parse(text)
    ensures Print(Parse(Print(Parse(text)))) == Print(Parse(text))
  {
    ScanNoEmptyRow(START, text);
    RoundTrip(Parse(text));
  }

  /** A downloaded preview reads back as its text columns and its rows, in order, without the skipped ones
    * (a listed row of no cells as one empty cell). */
  lemma PreviewReadsBack(columns: seq<Option<string>>, rows: seq<PreviewRow>)
    requires TextColumns(columns) != []
    ensures var texts := TextColumns(columns);
            Parse(PrintResult(texts, RowsOf(texts, rows))) == [texts] + FilledRows(RowsOf(texts, rows))
  {
    var texts := TextColumns(columns);
    ParsePrint([texts] + RowsOf(texts, rows));
    assert ([texts] + RowsOf(texts, rows))[1..] == RowsOf(texts, rows);
  }

  // ---------------------------------------------------------------- any text

  function Quotes(text: string): nat {
    if text == "" then 0 else (if text[0] == '"' then 1 else 0) + Quotes(text[1..])
  }

  /** Lines none of which is swallowed by the one before. */
  ghost predicate Separate(lines: seq<Line>) {
    ProperLines(lines) && forall i: nat :: !Joins(lines, i)
  }

  lemma {:induction false} QuotesAppend(a: string, b: string)
    ensures Quotes(a + b) == Quotes(a) + Quotes(b)
  {
    if a == "" {
      assert a + b == b;
    } else {
      assert (a + b)[1..] == a[1..] + b;
      QuotesAppend(a[1..], b);
    }
  }

  /** An odd number of quotes leaves a quoted piece that ends, after an even number, before something else. */
  lemma {:induction false} Closing(text: string) returns (content: string, rest: string)
    requires Quotes(text) % 2 == 1
    ensures text == DoubleQuotes(content) + ("\"" + rest) && Boundary(rest) && Quotes(rest) % 2 == 0
    decreases |text|
  {
    if text[0] != '"' {
      var c, r := Closing(text[1..]);
      content, rest := [text[0]] + c, r;
      DoubledFirst(content, "\"" + rest);
      assert content[1..] == c;
      assert text == [text[0]] + text[1..];
    } else if |text| > 1 && text[1] == '"' {
      assert text[1..][1..] == text[2..];
      var c, r := Closing(text[2..]);
      content, rest := ['"'] + c, r;
      DoubledFirst(content, "\"" + rest);
      assert content[1..] == c;
      assert text == "\"\"" + text[2..];
    } else {
      content, rest := "", text[1..];
      assert DoubleQuotes("") + ("\"" + rest) == "\"" + rest == text;
    }
  }

  /** The lines with a piece in front of the first cell. */
  function WithPiece(piece: Piece, lines: seq<Line>): seq<Line> {
    if lines == [] then [Line([[piece]], "")]
    else if lines[0].cells == [] then lines
    else [Line([[piece] + lines[0].cells[0]] + lines[0].cells[1..], lines[0].end)] + lines[1..]
  }

  /** The lines with an empty cell in front of the first cell. */
  function WithCell(lines: seq<Line>): seq<Line> {
    if lines == [] then [Line([[], []], "")]
    else [Line([[]] + lines[0].cells, lines[0].end)] + lines[1..]
  }

  lemma PieceWritten(piece: Piece, cell: Writing)
    ensures Written([piece] + cell) == PieceText(piece) + Written(cell)
  {
    assert ([piece] + cell)[1..] == cell;
  }

  lemma WrittenOne(cell: Writing)
    ensures WrittenCells([cell]) == Written(cell)
  {
  }

  lemma WrittenMore(cell: Writing, cells: seq<Writing>)
    requires cells != []
    ensures WrittenCells([cell] + cells) == Written(cell) + "," + WrittenCells(cells)
  {
    assert ([cell] + cells)[1..] == cells;
  }

  lemma RenderedMore(line: Line, lines: seq<Line>)
    ensures Rendered([line] + lines) == WrittenCells(line.cells) + line.end + Rendered(lines)
  {
    assert ([line] + lines)[1..] == lines;
  }

  lemma FirstCellGrows(piece: Piece, cells: seq<Writing>)
    requires cells != []
    ensures WrittenCells([[piece] + cells[0]] + cells[1..]) == PieceText(piece) + WrittenCells(cells)
  {
    hide PieceText, Written;
    PieceWritten(piece, cells[0]);
    if |cells| == 1 {
      WrittenOne([piece] + cells[0]);
      assert [[piece] + cells[0]] + cells[1..] == [[piece] + cells[0]];
    } else {
      WrittenMore([piece] + cells[0], cells[1..]);
    }
  }

  lemma WithPieceRenders(piece: Piece, lines: seq<Line>)
    requires Separate(lines)
    ensures Rendered(WithPiece(piece, lines)) == PieceText(piece) + Rendered(lines)
  {
    if lines == [] {
      PieceWritten(piece, []);
      WrittenOne([piece]);
      RenderedMore(Line([[piece]], ""), []);
    } else {
      var first := lines[0];
      FirstCellGrows(piece, first.cells);
      hide PieceText, WrittenCells;
      RenderedMore(WithPiece(piece, lines)[0], lines[1..]);
    }
  }

  /** What comes before a text does not quote it. */
  ghost predicate Fits(piece: Piece, text: string) {
    if piece.Plain? then piece.text != "" && !NeedsQuotes(piece.text) else Boundary(text)
  }

  lemma QuotedStarts(lines: seq<Line>)
    requires Separate(lines) && lines != [] && lines[0].cells[0] != [] && lines[0].cells[0][0].Quoted?
    ensures !Boundary(Rendered(lines))
  {
    var cells := lines[0].cells;
    WrittenFirst(cells[0], "");
    if |cells| > 1 { WrittenMore(cells[0], cells[1..]); assert cells == [cells[0]] + cells[1..]; }
    RenderedMore(lines[0], lines[1..]);
    assert lines == [lines[0]] + lines[1..];
  }

  lemma WithPieceIsProper(piece: Piece, lines: seq<Line>)
    requires Separate(lines) && Fits(piece, Rendered(lines))
    ensures Separate(WithPiece(piece, lines))
  {
    var more := WithPiece(piece, lines);
    if lines != [] {
      var cells := lines[0].cells;
      assert ProperCells(cells) && Proper(cells[0]);
      if piece.Quoted? && cells[0] != [] && cells[0][0].Quoted? { QuotedStarts(lines); }
      assert Proper([piece] + cells[0]);
      hide Proper, Rendered, NeedsQuotes, Boundary;
      forall i: nat ensures !Joins(more, i) { assert !Joins(lines, i); }
    }
  }

  lemma WithCellRenders(lines: seq<Line>)
    requires Separate(lines)
    ensures Rendered(WithCell(lines)) == "," + Rendered(lines)
  {
    NoPieces(START, "");
    if lines == [] {
      WrittenMore([], [[]]);
      WrittenOne([]);
      RenderedMore(Line([[], []], ""), []);
    } else {
      var first := lines[0];
      assert first.cells != [];
      hide *;
      WrittenMore([], first.cells);
      RenderedMore(Line([[]] + first.cells, first.end), lines[1..]);
      RenderedMore(first, lines[1..]);
      CommaFirst(lines);
    }
  }

  lemma CommaFirst(lines: seq<Line>)
    requires lines != [] && lines[0].cells != []
    ensures lines == [lines[0]] + lines[1..]
    ensures WithCell(lines) == [Line([[]] + lines[0].cells, lines[0].end)] + lines[1..]
    ensures Written([]) + "," + WrittenCells(lines[0].cells) + lines[0].end + Rendered(lines[1..])
            == "," + (WrittenCells(lines[0].cells) + lines[0].end + Rendered(lines[1..]))
  {
    hide WrittenCells, Rendered;
    assert Written([]) == "";
  }

  lemma WithCellIsProper(lines: seq<Line>)
    requires Separate(lines)
    ensures Separate(WithCell(lines))
  {
    hide Rendered, Written, WrittenCells;
    forall i: nat ensures !Joins(WithCell(lines), i) { assert !Joins(lines, i); }
  }

  lemma WithLineIs(end: string, lines: seq<Line>)
    requires Separate(lines) && IsLineEnd(end)
    requires end == "\r" && Rendered(lines) != "" ==> Rendered(lines)[0] != '\n'
    ensures var more := [Line([[]], end)] + lines; Rendered(more) == end + Rendered(lines) && Separate(more)
  {
    var more := [Line([[]], end)] + lines;
    WrittenOne([]);
    RenderedMore(Line([[]], end), lines);
    assert "" + end == end;
    if lines != [] {
      RenderedMore(lines[0], lines[1..]);
      assert lines == [lines[0]] + lines[1..];
    }
    hide Written, WrittenCells, Rendered;
    forall i: nat ensures !Joins(more, i) { if i > 0 { assert !Joins(lines, i - 1); } }
  }

  lemma QuotesStep(text: string)
    requires text != ""
    ensures Quotes(text) == (if text[0] == '"' then 1 else 0) + Quotes(text[1..])
    ensures text[0] == '\r' && |text| > 1 && text[1] == '\n' ==> Quotes(text[2..]) == Quotes(text)
  {
    if |text| > 1 { assert text[1..][1..] == text[2..]; }
  }

  lemma NoLines()
    ensures Rendered([]) == "" && Separate([])
  {
  }

  /** Lines that begin as the text does, from the lines of the rest. */
  lemma PieceFirst(piece: Piece, later: seq<Line>, text: string) returns (lines: seq<Line>)
    requires Separate(later) && Fits(piece, Rendered(later)) && text == PieceText(piece) + Rendered(later)
    ensures Rendered(lines) == text && Separate(lines)
  {
    hide *;
    lines := WithPiece(piece, later);
    WithPieceIsProper(piece, later);
    WithPieceRenders(piece, later);
  }

  lemma QuoteFirst(text: string, content: string, rest: string)
    requires text != "" && text[0] == '"' && text[1..] == DoubleQuotes(content) + ("\"" + rest) && Boundary(rest)
    ensures Fits(Quoted(content), rest) && text == PieceText(Quoted(content)) + rest && |rest| < |text|
  {
    hide DoubleQuotes, Boundary;
    assert text == "\"" + text[1..];
  }

  lemma CharFirst(text: string)
    requires text != "" && text[0] !in ['"', ',', '\n', '\r']
    ensures Fits(Plain([text[0]]), text[1..]) && text == PieceText(Plain([text[0]])) + text[1..]
  {
  }

  lemma LineFirst(end: string, later: seq<Line>, text: string)
    requires Separate(later) && end <= text && Rendered(later) == text[|end|..] && IsLineEnd(end)
    requires end == "\r" && |text| > 1 ==> text[1] != '\n'
    ensures Rendered([Line([[]], end)] + later) == text && Separate([Line([[]], end)] + later)
  {
    WithLineIs(end, later);
    hide Rendered, Separate;
  }

  /** Every text without an open quote is some lines as they can be written. */
  lemma {:induction false} EveryText(text: string) returns (lines: seq<Line>)
    requires Quotes(text) % 2 == 0
    ensures Rendered(lines) == text && Separate(lines)
    decreases |text|
  {
    hide *;
    if text == "" {
      NoLines();
      return [];
    }
    QuotesStep(text);
    if text[0] == '"' {
      var content, rest := Closing(text[1..]);
      QuoteFirst(text, content, rest);
      var later := EveryText(rest);
      lines := PieceFirst(Quoted(content), later, text);
    } else if "\r\n" <= text {
      var later := EveryText(text[2..]);
      lines := [Line([[]], "\r\n")] + later;
      Ends();
      LineFirst("\r\n", later, text);
    } else {
      var later := EveryText(text[1..]);
      if text[0] == ',' {
        lines := WithCell(later);
        WithCellRenders(later);
        WithCellIsProper(later);
        assert text == "," + text[1..];
      } else if text[0] == '\n' || text[0] == '\r' {
        lines := [Line([[]], [text[0]])] + later;
        Ends();
        LineFirst([text[0]], later, text);
      } else {
        CharFirst(text);
        lines := PieceFirst(Plain([text[0]]), later, text);
      }
    }
  }

  lemma Ends()
    ensures IsLineEnd("\n") && IsLineEnd("\r") && IsLineEnd("\r\n")
  {
  }

  /** A quote left open is closed by the end of the text. */
  lemma {:induction false} ScanOneMoreQuote(state: State, text: string)
    requires (Quotes(text) + if state.inQuotes then 1 else 0) % 2 == 1
    ensures Scan(state, text).inQuotes && Scan(state, text + "\"") == Scan(state, text).(inQuotes := false)
    decreases |text|
  {
    var more := text + "\"";
    if text == "" {
      assert more == "\"" && more[1..] == "";
      assert Scan(state, more) == state.(inQuotes := false);
    } else {
      var ch := text[0];
      var next := if |text| > 1 then Some(text[1]) else None;
      assert more[1..] == text[1..] + "\"";
      if |text| > 1 { assert more[2..] == text[2..] + "\"" && text[1..][1..] == text[2..]; }
      if |text| == 1 { assert text[1..] == "" && Quotes(text[1..]) == 0; }
      if ch == '"' && state.inQuotes && next == Some('"') {
        ScanOneMoreQuote(state.(cell := state.cell + ['"']), text[2..]);
      } else if ch == '"' {
        ScanOneMoreQuote(state.(inQuotes := !state.inQuotes), text[1..]);
      } else if ch == ',' && !state.inQuotes {
        ScanOneMoreQuote(state.(row := state.row + [state.cell], cell := ""), text[1..]);
      } else if (ch == '\n' || ch == '\r') && !state.inQuotes {
        var rest := if ch == '\r' && next == Some('\n') then text[2..] else text[1..];
        ScanOneMoreQuote(State(state.rows + [state.row + [state.cell]], [], "", false), rest);
      } else {
        ScanOneMoreQuote(state.(cell := state.cell + [ch]), text[1..]);
      }
    }
  }

  lemma {:induction false} KeptSeparate(lines: seq<Line>)
    requires Separate(lines)
    ensures |Rows(lines)| == |lines|
    ensures Kept(lines) == if Vanishes(lines) then Rows(lines)[..|lines| - 1] else Rows(lines)
    decreases |lines|
  {
    RowsLength(lines);
    if lines != [] && !(|lines| == 1 && Vanishes(lines)) {
      forall i: nat ensures !Joins(lines[1..], i) { assert !Joins(lines, i + 1); }
      ProperLater(lines, 1);
      KeptSeparate(lines[1..]);
      assert !Joins(lines, 0) && Rows(lines)[1..] == Rows(lines[1..]);
    }
  }

  /** What any text parses to. With a quote left open closed at the end it is lines as they can be written, and it
    * parses to the contents of their cells; an empty last line without a line end is dropped, and a text that
    * leaves nothing gives the one cell `value`. */
  lemma AnyText(text: string) returns (lines: seq<Line>)
    ensures Rendered(lines) == if Quotes(text) % 2 == 0 then text else text + "\""
    ensures Separate(lines) && |Rows(lines)| == |lines|
    ensures var table := if Vanishes(lines) then Rows(lines)[..|lines| - 1] else Rows(lines);
            Parse(text) == if table == [] then [["value"]] else table
  {
    var whole := text;
    if Quotes(text) % 2 == 1 {
      QuotesAppend(text, "\"");
      assert Quotes("\"") == 1;
      whole := text + "\"";
      ScanOneMoreQuote(START, text);
    }
    lines := EveryText(whole);
    KeptSeparate(lines);
    ScanRendered([], lines);
    hide Scan, Kept, Rendered, Rows, Quotes;
    assert [] + Kept(lines) == Kept(lines);
  }

  /** A preview's rows are printed one by one. */
  lemma PreviewRows(columns: Row, rows: seq<PreviewRow>, row: PreviewRow)
    ensures RowsOf(columns, []) == []
    ensures RowsOf(columns, rows + [row]) == RowsOf(columns, rows) + RowOf(columns, row)
  {
    RowsOfAppend(columns, rows, row);
  }

  /** A listed row has its cells, a recorded row one cell for each column, anything else is no row; an absent
    * cell is empty. */
  lemma PreviewCells(columns: Row, row: PreviewRow)
    ensures |RowOf(columns, row)| == if row.Skipped? then 0 else 1
    ensures row.Listed? ==> |RowOf(columns, row)[0]| == |row.cells|
    ensures row.Recorded? ==> |RowOf(columns, row)[0]| == |columns|
    ensures row.Listed? ==> forall i :: 0 <= i < |row.cells| ==>
              (RowOf(columns, row)[0][i] == if row.cells[i] == None then "" else row.cells[i].value)
    ensures row.Recorded? ==> forall i :: 0 <= i < |columns| ==>
              (RowOf(columns, row)[0][i]
               == if columns[i] in row.fields && row.fields[columns[i]].Some? then row.fields[columns[i]].value else "")
  {
    match row
    case Listed(cells) => TextsAre(cells);
    case Recorded(fields) => FieldsAre(columns, fields);
    case Skipped =>
  }

  lemma {:induction false} TextsAre(values: seq<Option<Cell>>)
    ensures |TextsOf(values)| == |values|
    ensures forall i :: 0 <= i < |values| ==> TextsOf(values)[i] == if values[i] == None then "" else values[i].value
  {
    if values != [] { TextsAre(values[1..]); }
  }

  lemma {:induction false} FieldsAre(columns: Row, fields: map<string, Option<Cell>>)
    ensures |FieldsOf(columns, fields)| == |columns|
    ensures forall i :: 0 <= i < |columns| ==>
              (FieldsOf(columns, fields)[i]
               == if columns[i] in fields && fields[columns[i]].Some? then fields[columns[i]].value else "")
  {
    if columns != [] { FieldsAre(columns[1..], fields); }
  }

  /** The columns are the names that are text, in order. */
  lemma {:induction false} TextColumnsAppend(a: seq<Option<string>>, b: seq<Option<string>>)
    ensures TextColumns([]) == [] && TextColumns([None]) == []
    ensures forall name :: TextColumns([Some(name)]) == [name]
    ensures TextColumns(a + b) == TextColumns(a) + TextColumns(b)
  {
    if a == [] {
      assert a + b == b;
    } else {
      TextColumnsAppend(a[1..], b);
      TextColumnsStep(a);
      TextColumnsStep(a + b);
      hide TextColumns;
      assert (a + b)[1..] == a[1..] + b;
    }
    forall name ensures TextColumns([Some(name)]) == [name] { TextColumnsStep([Some(name)]); }
  }

  lemma TextColumnsStep(columns: seq<Option<string>>)
    requires columns != []
    ensures TextColumns(columns) == (if columns[0].Some? then [columns[0].value] else []) + TextColumns(columns[1..])
  {
  }
}
