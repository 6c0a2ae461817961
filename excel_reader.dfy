/** The Excel side of the sync (excel_reader.py): the "vendors" worksheet of a workbook
    is read row by row, the first row naming the columns, and each data row with a
    usable ID and Name becomes an Excel vendor. The workbook is an input value: `None`
    when no file exists at the path. */
module ExcelReader {
  import opened Wrappers
  import opened PyStr
  import opened Models
  import opened Seqs

  /** A cell value as openpyxl returns it with `values_only=True`. */
  datatype Cell = NoneCell | StrCell(s: string) | IntCell(n: int)

  type Row = seq<Cell>

  /** The worksheets of an opened workbook, by name, each a sequence of rows. */
  datatype Workbook = Workbook(sheets: map<string, seq<Row>>)

  const SheetName := "vendors"
  const IdColumn := "ID"
  const NameColumn := "Name"

  /** `str(value)` for a cell value. */
  function CellStr(c: Cell): string {
    match c
    case NoneCell => "None"
    case StrCell(s) => s
    case IntCell(n) => IntToStr(n)
  }

  /** A header cell as a column name: stripped text, and "" for an empty cell. */
  function HeaderText(c: Cell): (h: string)
    ensures c.NoneCell? ==> h == ""
    ensures c.IntCell? ==> h == IntToStr(c.n)
  {
    match c
    case NoneCell => ""
    case StrCell(s) => Strip(s)
    case IntCell(n) => IntToStr(n)
  }

  /** Column names carry no surrounding whitespace. */
  lemma HeaderTextStripped(c: Cell)
    ensures Strip(HeaderText(c)) == HeaderText(c)
  {
    match c
    case NoneCell =>
    case StrCell(s) => StripIdempotent(s);
    case IntCell(n) => IntToStrStripped(n);
  }

  function Headers(row: Row): (hs: seq<string>)
    ensures |hs| == |row| && forall i :: 0 <= i < |row| ==> hs[i] == HeaderText(row[i])
  {
    seq(|row|, i requires 0 <= i < |row| => HeaderText(row[i]))
  }

  /** `{header: idx for idx, header in enumerate(headers)}`: each name maps to the last
      column that carries it. */
  function HeaderIndex(headers: seq<string>): (m: map<string, nat>)
    ensures m.Keys == set h | h in headers
    ensures forall h :: h in m ==> m[h] < |headers| && headers[m[h]] == h
    ensures forall h :: h in m ==> forall j :: m[h] < j < |headers| ==> headers[j] != h
  {
    if headers == [] then map[]
    else
      var init, h := headers[..|headers| - 1], headers[|headers| - 1];
      assert headers == init + [h];
      assert (set x | x in headers) == (set x | x in init) + {h};
      HeaderIndex(init)[h := |init|]
  }

  /** `_value(row, column)`: the cell under the named column, or None when the sheet has
      no such column or the row is too short to reach it. */
  function Value(row: Row, index: map<string, nat>, column: string): Cell {
    if column !in index || index[column] >= |row| then NoneCell else row[index[column]]
  }

  /** The record id of a raw ID cell: `str(int(raw))`, or `str(raw).strip()` where `int`
      rejects the value. */
  function NormaliseId(raw: Cell): string {
    match raw
    case IntCell(n) => IntToStr(n)
    case StrCell(s) => (match ParseInt(s) case Some(v) => IntToStr(v) case None => Strip(s))
    case NoneCell => "None"
  }

  /** The vendor a data row yields, or None when the row is skipped: no name cell, a
      blank name, an ID that is empty or the empty string, or an id that normalises to "". */
  function RowVendor(row: Row, index: map<string, nat>): (r: Option<Vendor>)
    ensures r.Some? ==> r.value.source == Excel && r.value.name != [] && r.value.recordId != []
  {
    var rawId := Value(row, index, IdColumn);
    var name := Value(row, index, NameColumn);
    if name.NoneCell? then None
    else
      var nameStr := Strip(CellStr(name));
      if nameStr == [] then None
      else if rawId == NoneCell || rawId == StrCell("") then None
      else
        var recordId := NormaliseId(rawId);
        if recordId == [] then None
        else Some(Vendor(recordId, nameStr, Excel))
  }

  /** The vendors of the data rows, in row order. */
  function Extracted(rows: seq<Row>, index: map<string, nat>): seq<Vendor> {
    Somes(RowReader(index), rows)
  }

  /** `RowVendor` under a fixed header index. */
  function RowReader(index: map<string, nat>): Row -> Option<Vendor> {
    row => RowVendor(row, index)
  }

  lemma ExtractedStep(rows: seq<Row>, i: nat, index: map<string, nat>)
    requires i < |rows|
    ensures var r := RowVendor(rows[i], index);
      Extracted(rows[..i + 1], index) == Extracted(rows[..i], index) + (if r.Some? then [r.value] else [])
  {
    SomesStep(RowReader(index), rows, i);
  }

  /** What reading a worksheet yields: nothing for an empty sheet, otherwise the
      vendors of every row after the header row. */
  function SheetVendors(rows: seq<Row>): seq<Vendor> {
    if rows == [] then [] else Extracted(rows[1..], HeaderIndex(Headers(rows[0])))
  }

  /** The outcome of `extract_vendor_list` on a workbook, or on none when the file is missing. */
  function Extraction(path: string, workbook: Option<Workbook>): Result<seq<Vendor>, PyError> {
    if workbook.None? then Err(FileNotFoundError("Workbook not found: " + path))
    else if SheetName !in workbook.value.sheets then Err(ValueError("Worksheet 'payment_terms' not found in workbook"))
    else Ok(SheetVendors(workbook.value.sheets[SheetName]))
  }

  /** `extract_vendor_list(workbook_path)`. */
  method ExtractVendorList(path: string, workbook: Option<Workbook>) returns (result: Result<seq<Vendor>, PyError>)
    ensures workbook.None? ==> result == Err(FileNotFoundError("Workbook not found: " + path))
    ensures workbook.Some? && SheetName !in workbook.value.sheets ==>
      result == Err(ValueError("Worksheet 'payment_terms' not found in workbook"))
    ensures workbook.Some? && SheetName in workbook.value.sheets ==>
      result == Ok(SheetVendors(workbook.value.sheets[SheetName]))
    ensures result == Extraction(path, workbook)
  {
    if workbook.None? {
      return Err(FileNotFoundError("Workbook not found: " + path));
    }
    if SheetName !in workbook.value.sheets {
      return Err(ValueError("Worksheet 'payment_terms' not found in workbook"));
    }
    var rows := workbook.value.sheets[SheetName];
    if rows == [] {
      return Ok([]);
    }
    var index := HeaderIndex(Headers(rows[0]));
    var vendors := ReadRows(rows[1..], index);
    return Ok(vendors);
  }

  /** The row loop of `extract_vendor_list`, with its skip rules in source order. */
  method ReadRows(data: seq<Row>, index: map<string, nat>) returns (vendors: seq<Vendor>)
    ensures vendors == Extracted(data, index)
  {
    vendors := [];
    for i := 0 to |data|
      invariant vendors == Extracted(data[..i], index)
    {
      ExtractedStep(data, i, index);
      var row := data[i];
      var rawId := Value(row, index, IdColumn);
      var name := Value(row, index, NameColumn);
      if name.NoneCell? {
        continue;
      }
      var nameStr := Strip(CellStr(name));
      if nameStr == [] {
        continue;
      }
      if rawId == NoneCell || rawId == StrCell("") {
        continue;
      }
      var recordId := NormaliseId(rawId);
      if recordId == [] {
        continue;
      }
      vendors := vendors + [Vendor(recordId, nameStr, Excel)];
    }
    assert data[..|data|] == data;
  }

  // ---------------------------------------------------------------- properties

  /** A header cell names a column exactly when its text is that name; two cells with the
      same text at different places leave the name on the later one. */
  lemma LaterHeaderWins(headers: seq<string>, i: nat, j: nat)
    requires i < j < |headers| && headers[i] == headers[j]
    requires forall k :: j < k < |headers| ==> headers[k] != headers[j]
    ensures HeaderIndex(headers)[headers[i]] == j
  {
  }

  /** `_value` under a header row: a column no header names reads as None in every row;
      a named column reads as the cell under the last header with that name, or as None
      when the row is too short to reach it. */
  lemma ValueUnderHeader(headers: seq<string>, row: Row, column: string)
    ensures column !in headers ==> Value(row, HeaderIndex(headers), column) == NoneCell
    ensures forall j :: 0 <= j < |headers| && headers[j] == column
                        && (forall k :: j < k < |headers| ==> headers[k] != column) ==>
      Value(row, HeaderIndex(headers), column) == (if j < |row| then row[j] else NoneCell)
  {
    var index := HeaderIndex(headers);
    forall j | 0 <= j < |headers| && headers[j] == column
               && (forall k :: j < k < |headers| ==> headers[k] != column)
      ensures index[column] == j
    {
      assert column in index;
      var m := index[column];
      assert m < |headers| && headers[m] == column;
    }
  }

  /** Every extracted vendor is tagged "excel", and has a non-empty name and id, both with
      no surrounding whitespace. */
  lemma ExtractedWellFormed(rows: seq<Row>, index: map<string, nat>)
    ensures forall v :: v in Extracted(rows, index) ==>
      && v.source == Excel && v.name != [] && v.recordId != []
      && Strip(v.name) == v.name && Strip(v.recordId) == v.recordId
  {
    forall v | v in Extracted(rows, index)
      ensures && v.source == Excel && v.name != [] && v.recordId != []
              && Strip(v.name) == v.name && Strip(v.recordId) == v.recordId
    {
      SomesFrom(RowReader(index), rows, v);
      var i :| 0 <= i < |rows| && RowReader(index)(rows[i]) == Some(v);
      RowVendorTrimmed(rows[i], index);
    }
  }

  lemma RowVendorTrimmed(row: Row, index: map<string, nat>)
    requires RowVendor(row, index).Some?
    ensures Strip(RowVendor(row, index).value.name) == RowVendor(row, index).value.name
    ensures Strip(RowVendor(row, index).value.recordId) == RowVendor(row, index).value.recordId
  {
    var name := CellStr(Value(row, index, NameColumn));
    var rawId := Value(row, index, IdColumn);
    assert RowVendor(row, index).value == Vendor(NormaliseId(rawId), Strip(name), Excel);
    StripIdempotent(name);
    NormaliseIdTrimmed(rawId);
  }

  /** A normalised id has no surrounding whitespace. */
  lemma NormaliseIdTrimmed(raw: Cell)
    ensures Strip(NormaliseId(raw)) == NormaliseId(raw)
  {
    match raw
    case IntCell(n) => IntToStrStripped(n);
    case StrCell(s) =>
      if ParseInt(s).Some? {
        IntToStrStripped(ParseInt(s).value);
      } else {
        StripIdempotent(s);
      }
    case NoneCell =>
  }

  /** Normalising is idempotent: an id read back from a text cell normalises to itself,
      unless the cell's text holds an information separator (see SeparatorPadNotIdempotent). */
  lemma NormaliseIdIdempotent(raw: Cell)
    requires raw.StrCell? ==> NoInfoSeparator(raw.s)
    ensures NormaliseId(StrCell(NormaliseId(raw))) == NormaliseId(raw)
  {
    match raw
    case IntCell(n) => IntToStrRoundTrip(n);
    case StrCell(s) =>
      if ParseInt(s).Some? {
        IntToStrRoundTrip(ParseInt(s).value);
      } else {
        TextIdFallback(s);
      }
    case NoneCell => NoneIdIsText();
  }

  lemma TextIdFallback(s: string)
    requires ParseInt(s).None? && NoInfoSeparator(s)
    ensures NormaliseId(StrCell(Strip(s))) == Strip(s)
  {
    StripIdempotent(s);
    StripKeepsNoSeparator(s);
    assert ParseInt(Strip(s)) == ParseInt(s);
  }

  /** A text ID padded with an information separator is not a fixed point: `int` rejects
      "\x1c05", so its id is the stripped "05", which `int` then reads as "5". */
  lemma SeparatorPadNotIdempotent()
    ensures NormaliseId(StrCell("\U{1c}05")) == "05"
    ensures NormaliseId(StrCell("05")) == "5"
  {
    SeparatorPadRejected();
    ZeroFiveParse();
  }

  lemma SeparatorPadRejected()
    ensures ParseInt("\U{1c}05") == None && Strip("\U{1c}05") == "05"
  {
    var s := "\U{1c}05";
    assert IsInfoSeparator(s[0]);
    assert s == ['\U{1c}'] + "05" + "";
    StripPadded(['\U{1c}'], "05", "");
  }

  lemma ZeroFiveParse()
    ensures ParseInt("05") == Some(5) && IntToStr(5) == "5"
  {
    PaddedDigitsParse("", "05", "");
    assert "" + "05" + "" == "05";
    assert DecimalValue("05") == 5;
  }

  lemma NoneIdIsText()
    ensures NormaliseId(StrCell("None")) == "None"
  {
    NoneIsNotInt();
    NoneIsStripped();
  }

  lemma NoneIsStripped()
    ensures Strip("None") == "None"
  {
    var s := "None";
    assert !IsSpace(s[0]) && !IsSpace(s[1]) && !IsSpace(s[2]) && !IsSpace(s[3]);
    assert forall i :: 0 <= i < |s| ==> !IsSpace(s[i]);
    StripNoSpace(s);
  }

  lemma NoneIsNotInt()
    ensures ParseInt("None") == None
  {
    NoneIsStripped();
    assert !IsDigit('N');
  }

  /** A numeric ID and the same number typed as text give the same record id, so both
      sides of the sync can meet on it. */
  lemma NumericIdsAgree(n: int)
    ensures NormaliseId(IntCell(n)) == NormaliseId(StrCell(IntToStr(n)))
  {
    IntToStrRoundTrip(n);
  }

  /** A number typed as text reads as that number whatever whitespace surrounds it and
      however many leading zeros it has: " 030 " and 30 are the same record id. */
  lemma PaddedNumericText(n: nat, pad: string, zeros: string, trail: string)
    requires forall i :: 0 <= i < |pad| ==> IsIntSpace(pad[i])
    requires forall i :: 0 <= i < |trail| ==> IsIntSpace(trail[i])
    requires forall i :: 0 <= i < |zeros| ==> zeros[i] == '0'
    ensures NormaliseId(StrCell(pad + zeros + NatToDecimal(n) + trail)) == NormaliseId(IntCell(n))
  {
    var digits := NatToDecimal(n);
    var d := zeros + digits;
    LeadingZerosValue(zeros, digits);
    assert pad + zeros + digits + trail == pad + d + trail;
    PaddedDigitsParse(pad, d, trail);
  }

  /** `int` reads padded digits as their decimal value. */
  lemma PaddedDigitsParse(pad: string, d: string, trail: string)
    requires forall i :: 0 <= i < |pad| ==> IsIntSpace(pad[i])
    requires forall i :: 0 <= i < |trail| ==> IsIntSpace(trail[i])
    requires d != [] && AllDigits(d)
    ensures ParseInt(pad + d + trail) == Some(DecimalValue(d) as int)
  {
    IntSpaces(pad);
    IntSpaces(trail);
    DigitsNoSeparator(d);
    ConcatNoSeparator(pad, d, trail);
    assert IsDigit(d[0]) && IsDigit(d[|d| - 1]);
    StripPadded(pad, d, trail);
    ParseIntStripped(pad + d + trail, d);
    ParseSignedDigits(d);
  }

  /** Rows are read independently: the vendors of two runs of rows are the vendors of
      each run, one after the other. */
  lemma ExtractedAppend(a: seq<Row>, b: seq<Row>, index: map<string, nat>)
    ensures Extracted(a + b, index) == Extracted(a, index) + Extracted(b, index)
  {
    SomesAppend(RowReader(index), a, b);
  }

  /** At most one vendor per data row. */
  lemma ExtractedAtMostRows(rows: seq<Row>, index: map<string, nat>)
    ensures |Extracted(rows, index)| <= |rows|
  {
    SomesLength(RowReader(index), rows);
  }

  /** A row with a numeric ID and a non-blank name yields exactly that vendor. */
  lemma WellFilledRow(row: Row, index: map<string, nat>, n: int, name: string)
    requires Value(row, index, IdColumn) == IntCell(n)
    requires Value(row, index, NameColumn) == StrCell(name) && Strip(name) != []
    ensures RowVendor(row, index) == Some(Vendor(IntToStr(n), Strip(name), Excel))
  {
    IntToStrStripped(n);
  }
}
