/** The array logic of the spreadsheet helper (src/utils/excelHandler.ts): sheet lookup, rows to header-keyed
    records, search across every cell, and the file-type test. Reading and writing workbooks is not modelled. */
module Excel {
  import opened Wrappers
  import opened Text
  import opened Seqs

  /** A cell value as the spreadsheet library returns it. Numbers are modelled as integers. */
  datatype Cell = TextCell(text: string) | NumberCell(number: int) | BoolCell(flag: bool) | NoCell

  /** JavaScript truthiness of a cell: `''`, `0`, `false` and `undefined` are falsy. */
  predicate Truthy(c: Cell) {
    match c
    case TextCell(t) => t != ""
    case NumberCell(n) => n != 0
    case BoolCell(b) => b
    case NoCell => false
  }

  /** `String(cell)`, which is also the property key a cell becomes. */
  function CellString(c: Cell): string {
    match c
    case TextCell(t) => t
    case NumberCell(n) => IntToString(n)
    case BoolCell(b) => if b then "true" else "false"
    case NoCell => "undefined"
  }

  datatype ExcelSheet = ExcelSheet(name: string, data: seq<seq<Cell>>, headers: seq<Cell>, rowCount: int, columnCount: int)

  datatype ExcelFile = ExcelFile(fileName: string, sheets: seq<ExcelSheet>, sheetNames: seq<string>, totalSheets: int)

  // ---------------------------------------------------------------- sheet lookup

  /** `getSheetByName`: the first sheet with exactly that name. */
  function GetSheetByName(file: ExcelFile, sheetName: string): (found: Option<ExcelSheet>)
    ensures found.None? <==> forall i :: 0 <= i < |file.sheets| ==> file.sheets[i].name != sheetName
    ensures found.Some? ==> exists i :: 0 <= i < |file.sheets| && file.sheets[i] == found.value
                                      && found.value.name == sheetName
                                      && forall j :: 0 <= j < i ==> file.sheets[j].name != sheetName
  {
    var i := FindIndex(file.sheets, (sh: ExcelSheet) => sh.name == sheetName);
    if i == -1 then None else Some(file.sheets[i])
  }

  /** `getSheetByIndex`: the sheet at an index within range, nothing otherwise. */
  function GetSheetByIndex(file: ExcelFile, index: int): (found: Option<ExcelSheet>)
    ensures found.Some? <==> 0 <= index < |file.sheets|
    ensures found.Some? ==> found.value == file.sheets[index]
  {
    if 0 <= index < |file.sheets| then Some(file.sheets[index]) else None
  }

  /** With distinct sheet names, looking a sheet up by its name finds the sheet at its index. */
  lemma LookupsAgree(file: ExcelFile, index: int)
    requires 0 <= index < |file.sheets|
    requires forall i, j :: 0 <= i < j < |file.sheets| ==> file.sheets[i].name != file.sheets[j].name
    ensures GetSheetByName(file, file.sheets[index].name) == GetSheetByIndex(file, index)
  {
    var found := GetSheetByName(file, file.sheets[index].name);
    var i :| 0 <= i < |file.sheets| && file.sheets[i] == found.value && found.value.name == file.sheets[index].name
             && forall j :: 0 <= j < i ==> file.sheets[j].name != file.sheets[index].name;
    assert i == index;
  }

  // ---------------------------------------------------------------- rows to records

  /** `row[index] || ''`. */
  function CellOr(row: seq<Cell>, index: int): (c: Cell)
    requires 0 <= index
    ensures Truthy(c) || c == TextCell("")
  {
    if index < |row| && Truthy(row[index]) then row[index] else TextCell("")
  }

  /** The record built from a row over the first `n` headers, each header's key taking the row's cell below it;
      a later header with the same key overwrites an earlier one. */
  function RowObject(headers: seq<Cell>, row: seq<Cell>, n: nat): map<string, Cell>
    requires n <= |headers|
  {
    if n == 0 then map[] else RowObject(headers, row, n - 1)[CellString(headers[n - 1]) := CellOr(row, n - 1)]
  }

  /** The records `sheetToObjects` returns: none for a sheet of at most one row, else one per row after the first. */
  function SheetObjects(data: seq<seq<Cell>>): (objects: seq<map<string, Cell>>)
    ensures |objects| == if |data| <= 1 then 0 else |data| - 1
  {
    if |data| <= 1 then [] else seq(|data| - 1, i requires 0 <= i < |data| - 1 => RowObject(data[0], data[i + 1], |data[0]|))
  }

  /** The keys of a record are the headers' keys, and each key holds the cell below its last header. */
  lemma {:induction false} RowObjectLookup(headers: seq<Cell>, row: seq<Cell>, n: nat, j: int)
    requires n <= |headers| && 0 <= j < n
    requires forall k :: j < k < n ==> CellString(headers[k]) != CellString(headers[j])
    ensures CellString(headers[j]) in RowObject(headers, row, n)
    ensures RowObject(headers, row, n)[CellString(headers[j])] == CellOr(row, j)
  {
    if j < n - 1 {
      RowObjectLookup(headers, row, n - 1, j);
    }
  }

  /** Every key of a record comes from a header. */
  lemma {:induction false} RowObjectKeys(headers: seq<Cell>, row: seq<Cell>, n: nat, key: string)
    requires n <= |headers|
    ensures key in RowObject(headers, row, n) <==> exists k :: 0 <= k < n && CellString(headers[k]) == key
  {
    if n > 0 {
      RowObjectKeys(headers, row, n - 1, key);
      if CellString(headers[n - 1]) != key && exists k :: 0 <= k < n && CellString(headers[k]) == key {
        var k :| 0 <= k < n && CellString(headers[k]) == key;
        assert k < n - 1;
      }
    }
  }

  /** With distinct header keys, the record of a row maps header `j` to the `j`-th cell, or to `''` when that cell
      is missing or falsy. */
  lemma RecordOfRow(data: seq<seq<Cell>>, i: int, j: int)
    requires 1 < |data| && 0 <= i < |data| - 1 && 0 <= j < |data[0]|
    requires forall a, b :: 0 <= a < b < |data[0]| ==> CellString(data[0][a]) != CellString(data[0][b])
    ensures CellString(data[0][j]) in SheetObjects(data)[i]
    ensures SheetObjects(data)[i][CellString(data[0][j])]
            == if j < |data[i + 1]| && Truthy(data[i + 1][j]) then data[i + 1][j] else TextCell("")
  {
    RowObjectLookup(data[0], data[i + 1], |data[0]|, j);
  }

  /** `sheetToObjects`. */
  method SheetToObjects(sheet: ExcelSheet) returns (objects: seq<map<string, Cell>>)
    ensures objects == SheetObjects(sheet.data)
  {
    if |sheet.data| <= 1 {
      return [];
    }
    var headers := sheet.data[0];
    var rows := sheet.data[1..];
    objects := [];
    for i := 0 to |rows|
      invariant |objects| == i
      invariant forall k :: 0 <= k < i ==> objects[k] == RowObject(headers, rows[k], |headers|)
    {
      var obj: map<string, Cell> := map[];
      for j := 0 to |headers|
        invariant obj == RowObject(headers, rows[i], j)
      {
        obj := obj[CellString(headers[j]) := CellOr(rows[i], j)];
      }
      objects := objects + [obj];
    }
  }

  // ---------------------------------------------------------------- search

  /** The term occurs, ignoring case, in the text of a truthy cell. */
  predicate CellMatches(c: Cell, term: string) {
    Truthy(c) && Includes(ToLower(CellString(c)), ToLower(term))
  }

  /** The cell test of the search as a predicate on cells; the match lists below are defined for any such test. */
  function MatchesTerm(term: string): Cell -> bool { (c: Cell) => CellMatches(c, term) }

  /** A cell position: sheet index, row index, column index. */
  datatype Pos = Pos(sheet: nat, row: nat, col: nat)

  predicate ValidPos(sheets: seq<ExcelSheet>, p: Pos) {
    p.sheet < |sheets| && p.row < |sheets[p.sheet].data| && p.col < |sheets[p.sheet].data[p.row]|
  }

  predicate MatchAt(sheets: seq<ExcelSheet>, m: Cell -> bool, p: Pos) {
    ValidPos(sheets, p) && m(sheets[p.sheet].data[p.row][p.col])
  }

  /** Sheet, then row, then column order. */
  predicate Before(p: Pos, q: Pos) {
    p.sheet < q.sheet || (p.sheet == q.sheet && (p.row < q.row || (p.row == q.row && p.col < q.col)))
  }

  predicate StrictlyOrdered(ps: seq<Pos>) {
    forall i, j :: 0 <= i < j < |ps| ==> Before(ps[i], ps[j])
  }

  /** The positions among the first `c` cells of row `r` of sheet `s` whose cell passes `m`. */
  function RowMatches(sheets: seq<ExcelSheet>, m: Cell -> bool, s: nat, r: nat, c: nat): (ps: seq<Pos>)
    requires s < |sheets| && r < |sheets[s].data| && c <= |sheets[s].data[r]|
    ensures forall i :: 0 <= i < |ps| ==> ps[i].sheet == s && ps[i].row == r && ps[i].col < c && MatchAt(sheets, m, ps[i])
  {
    if c == 0 then []
    else RowMatches(sheets, m, s, r, c - 1)
         + (if m(sheets[s].data[r][c - 1]) then [Pos(s, r, c - 1)] else [])
  }

  /** The matching positions among the first `r` rows of sheet `s`. */
  function SheetMatches(sheets: seq<ExcelSheet>, m: Cell -> bool, s: nat, r: nat): (ps: seq<Pos>)
    requires s < |sheets| && r <= |sheets[s].data|
    ensures forall i :: 0 <= i < |ps| ==> ps[i].sheet == s && ps[i].row < r && MatchAt(sheets, m, ps[i])
  {
    if r == 0 then []
    else SheetMatches(sheets, m, s, r - 1) + RowMatches(sheets, m, s, r - 1, |sheets[s].data[r - 1]|)
  }

  /** The matching positions among the first `n` sheets. */
  function FileMatches(sheets: seq<ExcelSheet>, m: Cell -> bool, n: nat): (ps: seq<Pos>)
    requires n <= |sheets|
    ensures forall i :: 0 <= i < |ps| ==> ps[i].sheet < n && MatchAt(sheets, m, ps[i])
  {
    if n == 0 then []
    else FileMatches(sheets, m, n - 1) + SheetMatches(sheets, m, n - 1, |sheets[n - 1].data|)
  }

  /** One entry of the result of `searchInAllSheets`. */
  datatype SearchHit = SearchHit(sheetName: string, rowIndex: int, columnIndex: int, value: Cell)

  function HitAt(sheets: seq<ExcelSheet>, p: Pos): SearchHit
    requires ValidPos(sheets, p)
  {
    SearchHit(sheets[p.sheet].name, p.row, p.col, sheets[p.sheet].data[p.row][p.col])
  }

  /** The hits reported for a list of matching positions. */
  function Hits(sheets: seq<ExcelSheet>, ps: seq<Pos>): (hits: seq<SearchHit>)
    requires forall i :: 0 <= i < |ps| ==> ValidPos(sheets, ps[i])
    ensures |hits| == |ps|
    ensures forall i :: 0 <= i < |ps| ==> hits[i] == HitAt(sheets, ps[i])
  {
    seq(|ps|, i requires 0 <= i < |ps| => HitAt(sheets, ps[i]))
  }

  /** Hits distribute over concatenation. */
  lemma HitsAppend(sheets: seq<ExcelSheet>, a: seq<Pos>, b: seq<Pos>)
    requires forall i :: 0 <= i < |a| ==> ValidPos(sheets, a[i])
    requires forall i :: 0 <= i < |b| ==> ValidPos(sheets, b[i])
    ensures forall i :: 0 <= i < |a + b| ==> ValidPos(sheets, (a + b)[i])
    ensures Hits(sheets, a + b) == Hits(sheets, a) + Hits(sheets, b)
  {
    assert forall i :: 0 <= i < |a + b| ==> ValidPos(sheets, (a + b)[i]) by {
      forall i | 0 <= i < |a + b|
        ensures ValidPos(sheets, (a + b)[i])
      {
        if i >= |a| {
          assert (a + b)[i] == b[i - |a|];
        }
      }
    }
  }

  /** The inner `row.forEach` of `searchInAllSheets`: the hits of one row, column by column. */
  method SearchRow(sheets: seq<ExcelSheet>, term: string, s: nat, r: nat) returns (found: seq<SearchHit>)
    requires s < |sheets| && r < |sheets[s].data|
    ensures found == Hits(sheets, RowMatches(sheets, MatchesTerm(term), s, r, |sheets[s].data[r]|))
  {
    var row := sheets[s].data[r];
    found := [];
    for c := 0 to |row|
      invariant found == Hits(sheets, RowMatches(sheets, MatchesTerm(term), s, r, c))
    {
      ghost var before := RowMatches(sheets, MatchesTerm(term), s, r, c);
      if CellMatches(row[c], term) {
        assert RowMatches(sheets, MatchesTerm(term), s, r, c + 1) == before + [Pos(s, r, c)];
        HitsAppend(sheets, before, [Pos(s, r, c)]);
        assert Hits(sheets, [Pos(s, r, c)]) == [SearchHit(sheets[s].name, r, c, row[c])];
        found := found + [SearchHit(sheets[s].name, r, c, row[c])];
      } else {
        assert RowMatches(sheets, MatchesTerm(term), s, r, c + 1) == before + [];
        assert before + [] == before;
      }
    }
  }

  /** The middle `sheet.data.forEach` of `searchInAllSheets`: the hits of one sheet, row by row. */
  method SearchSheet(sheets: seq<ExcelSheet>, term: string, s: nat) returns (found: seq<SearchHit>)
    requires s < |sheets|
    ensures found == Hits(sheets, SheetMatches(sheets, MatchesTerm(term), s, |sheets[s].data|))
  {
    found := [];
    for r := 0 to |sheets[s].data|
      invariant found == Hits(sheets, SheetMatches(sheets, MatchesTerm(term), s, r))
    {
      var inRow := SearchRow(sheets, term, s, r);
      ghost var row := RowMatches(sheets, MatchesTerm(term), s, r, |sheets[s].data[r]|);
      assert SheetMatches(sheets, MatchesTerm(term), s, r + 1) == SheetMatches(sheets, MatchesTerm(term), s, r) + row;
      HitsAppend(sheets, SheetMatches(sheets, MatchesTerm(term), s, r), row);
      found := found + inRow;
    }
  }

  /** `searchInAllSheets`: the hits of every matching cell, sheet by sheet, row by row, column by column. */
  method SearchInAllSheets(file: ExcelFile, term: string) returns (results: seq<SearchHit>)
    ensures results == Hits(file.sheets, FileMatches(file.sheets, MatchesTerm(term), |file.sheets|))
  {
    var sheets := file.sheets;
    results := [];
    for s := 0 to |sheets|
      invariant results == Hits(sheets, FileMatches(sheets, MatchesTerm(term), s))
    {
      var inSheet := SearchSheet(sheets, term, s);
      ghost var sheet := SheetMatches(sheets, MatchesTerm(term), s, |sheets[s].data|);
      assert FileMatches(sheets, MatchesTerm(term), s + 1) == FileMatches(sheets, MatchesTerm(term), s) + sheet;
      HitsAppend(sheets, FileMatches(sheets, MatchesTerm(term), s), sheet);
      results := results + inSheet;
    }
  }

  /** Two ordered lists, every element of the first before every element of the second, make an ordered list. */
  lemma OrderedAppend(a: seq<Pos>, b: seq<Pos>)
    requires StrictlyOrdered(a) && StrictlyOrdered(b)
    requires forall i, j :: 0 <= i < |a| && 0 <= j < |b| ==> Before(a[i], b[j])
    ensures StrictlyOrdered(a + b)
  {
    forall i, j | 0 <= i < j < |a + b|
      ensures Before((a + b)[i], (a + b)[j])
    {
      if j < |a| {
      } else if i < |a| {
        assert (a + b)[j] == b[j - |a|];
      } else {
        assert (a + b)[i] == b[i - |a|] && (a + b)[j] == b[j - |a|];
      }
    }
  }

  /** Adding at most one later cell of the same row keeps a row's positions ordered. */
  lemma AppendLaterColumn(init: seq<Pos>, tail: seq<Pos>, p: Pos)
    requires StrictlyOrdered(init)
    requires forall i :: 0 <= i < |init| ==> init[i].sheet == p.sheet && init[i].row == p.row && init[i].col < p.col
    requires tail == [] || tail == [p]
    ensures StrictlyOrdered(init + tail)
  {
    if tail == [] {
      assert init + tail == init;
    } else {
      OrderedAppend(init, tail);
    }
  }

  /** Each row's matches come in strictly increasing column order. */
  lemma {:induction false} RowMatchesOrdered(sheets: seq<ExcelSheet>, m: Cell -> bool, s: nat, r: nat, c: nat)
    requires s < |sheets| && r < |sheets[s].data| && c <= |sheets[s].data[r]|
    ensures StrictlyOrdered(RowMatches(sheets, m, s, r, c))
  {
    if c > 0 {
      RowMatchesOrdered(sheets, m, s, r, c - 1);
      var tail := if m(sheets[s].data[r][c - 1]) then [Pos(s, r, c - 1)] else [];
      AppendLaterColumn(RowMatches(sheets, m, s, r, c - 1), tail, Pos(s, r, c - 1));
    }
  }

  /** Each sheet's matches come in strictly increasing row-then-column order. */
  lemma {:induction false} SheetMatchesOrdered(sheets: seq<ExcelSheet>, m: Cell -> bool, s: nat, r: nat)
    requires s < |sheets| && r <= |sheets[s].data|
    ensures StrictlyOrdered(SheetMatches(sheets, m, s, r))
  {
    if r > 0 {
      SheetMatchesOrdered(sheets, m, s, r - 1);
      RowMatchesOrdered(sheets, m, s, r - 1, |sheets[s].data[r - 1]|);
      OrderedAppend(SheetMatches(sheets, m, s, r - 1), RowMatches(sheets, m, s, r - 1, |sheets[s].data[r - 1]|));
    }
  }

  /** All matches come in strictly increasing sheet-row-column order, so no cell is reported twice. */
  lemma {:induction false} FileMatchesOrdered(sheets: seq<ExcelSheet>, m: Cell -> bool, n: nat)
    requires n <= |sheets|
    ensures StrictlyOrdered(FileMatches(sheets, m, n))
  {
    if n > 0 {
      FileMatchesOrdered(sheets, m, n - 1);
      SheetMatchesOrdered(sheets, m, n - 1, |sheets[n - 1].data|);
      OrderedAppend(FileMatches(sheets, m, n - 1), SheetMatches(sheets, m, n - 1, |sheets[n - 1].data|));
    }
  }

  /** A matching cell among the first `c` of its row is found. */
  lemma {:induction false} RowMatchesComplete(sheets: seq<ExcelSheet>, m: Cell -> bool, s: nat, r: nat, c: nat, k: nat)
    requires s < |sheets| && r < |sheets[s].data| && c <= |sheets[s].data[r]|
    requires k < c && m(sheets[s].data[r][k])
    ensures Pos(s, r, k) in RowMatches(sheets, m, s, r, c)
  {
    var init := RowMatches(sheets, m, s, r, c - 1);
    var tail := if m(sheets[s].data[r][c - 1]) then [Pos(s, r, c - 1)] else [];
    assert RowMatches(sheets, m, s, r, c) == init + tail;
    if k < c - 1 {
      RowMatchesComplete(sheets, m, s, r, c - 1, k);
      assert Pos(s, r, k) in init;
    } else {
      assert tail == [Pos(s, r, k)];
    }
  }

  /** A matching cell among the first `r` rows of its sheet is found. */
  lemma {:induction false} SheetMatchesComplete(sheets: seq<ExcelSheet>, m: Cell -> bool, s: nat, r: nat, p: Pos)
    requires s < |sheets| && r <= |sheets[s].data|
    requires MatchAt(sheets, m, p) && p.sheet == s && p.row < r
    ensures p in SheetMatches(sheets, m, s, r)
  {
    var init := SheetMatches(sheets, m, s, r - 1);
    var row := RowMatches(sheets, m, s, r - 1, |sheets[s].data[r - 1]|);
    assert SheetMatches(sheets, m, s, r) == init + row;
    if p.row < r - 1 {
      SheetMatchesComplete(sheets, m, s, r - 1, p);
      assert p in init;
    } else {
      RowMatchesComplete(sheets, m, s, p.row, |sheets[s].data[p.row]|, p.col);
      assert p == Pos(s, p.row, p.col) && p in row;
    }
  }

  /** A matching cell among the first `n` sheets is found. */
  lemma {:induction false} FileMatchesComplete(sheets: seq<ExcelSheet>, m: Cell -> bool, n: nat, p: Pos)
    requires n <= |sheets| && MatchAt(sheets, m, p) && p.sheet < n
    ensures p in FileMatches(sheets, m, n)
  {
    var init := FileMatches(sheets, m, n - 1);
    var sheet := SheetMatches(sheets, m, n - 1, |sheets[n - 1].data|);
    assert FileMatches(sheets, m, n) == init + sheet;
    if p.sheet < n - 1 {
      FileMatchesComplete(sheets, m, n - 1, p);
      assert p in init;
    } else {
      SheetMatchesComplete(sheets, m, p.sheet, |sheets[p.sheet].data|, p);
      assert p in sheet;
    }
  }

  /** The search reports exactly the matching cells, each once, in sheet-row-column order: every result names an
      existing sheet, row and column and carries a truthy cell containing the term; every such cell is listed. */
  lemma SearchExact(file: ExcelFile, term: string)
    ensures StrictlyOrdered(FileMatches(file.sheets, MatchesTerm(term), |file.sheets|))
    ensures forall p :: p in FileMatches(file.sheets, MatchesTerm(term), |file.sheets|) <==>
                          ValidPos(file.sheets, p) && CellMatches(file.sheets[p.sheet].data[p.row][p.col], term)
  {
    var m := MatchesTerm(term);
    var ps := FileMatches(file.sheets, m, |file.sheets|);
    FileMatchesOrdered(file.sheets, m, |file.sheets|);
    forall p | MatchAt(file.sheets, m, p)
      ensures p in ps
    {
      FileMatchesComplete(file.sheets, m, |file.sheets|, p);
    }
  }

  // ---------------------------------------------------------------- file type

  const XlsxType := "application/vnd.openxmlformats-officedocument.spreadsheetml.sheet"
  const XlsType := "application/vnd.ms-excel"
  const XlsmType := "application/vnd.ms-excel.sheet.macroEnabled.12"
  const CsvType := "text/csv"
  const ValidTypes: seq<string> := [XlsxType, XlsType, XlsmType, CsvType]
  const ValidExtensions: seq<string> := [".xlsx", ".xls", ".xlsm", ".csv"]

  /** `name.toLowerCase().substring(name.lastIndexOf('.'))`; without a dot the index -1 counts as 0. */
  function FileExtension(name: string): string {
    var dot := LastIndexOfChar(name, '.');
    ToLower(name)[if dot < 0 then 0 else dot..]
  }

  /** `isValidExcelFile`. */
  predicate IsValidExcelFile(name: string, mimeType: string) {
    mimeType in ValidTypes || FileExtension(name) in ValidExtensions
  }

  /** A file is accepted exactly when its type is listed, or its name has a dot and the part from the last dot is
      one of the extensions in any case. */
  lemma IsValidExcelFileIff(name: string, mimeType: string)
    ensures IsValidExcelFile(name, mimeType) <==>
              mimeType in ValidTypes
              || (LastIndexOfChar(name, '.') >= 0 && ToLower(name[LastIndexOfChar(name, '.')..]) in ValidExtensions)
  {
    var dot := LastIndexOfChar(name, '.');
    if dot < 0 {
      assert FileExtension(name) == ToLower(name);
      assert forall i :: 0 <= i < |name| ==> ToLower(name)[i] != '.';
      assert forall e :: e in ValidExtensions ==> |e| > 0 && e[0] == '.';
    } else {
      assert ToLower(name)[dot..] == ToLower(name[dot..]);
    }
  }

  /** Lower-casing the name does not change the verdict. */
  lemma IsValidExcelFileIgnoresCase(name: string, mimeType: string)
    ensures IsValidExcelFile(ToLower(name), mimeType) == IsValidExcelFile(name, mimeType)
  {
    LastDotIgnoresCase(name);
    assert ToLower(ToLower(name)) == ToLower(name);
  }

  lemma {:induction false} LastDotIgnoresCase(s: string)
    ensures LastIndexOfChar(ToLower(s), '.') == LastIndexOfChar(s, '.')
  {
    if s != [] {
      assert ToLower(s)[..|s| - 1] == ToLower(s[..|s| - 1]);
      LastDotIgnoresCase(s[..|s| - 1]);
    }
  }
}
