# Vendor sync between an Excel workbook and QuickBooks, modelled in Dafny

The system reads vendors from the "vendors" worksheet of an Excel workbook and from
QuickBooks. It compares the two lists by record id, writes a JSON comparison report, and
offers the vendors found only in Excel back to QuickBooks in one batch request. The model
covers the following:

- `Models` (models.dfy): the record types, their two literal enumerations, and `Vendor.__repr__`.
- `Comparer` (comparer.dfy): the reconciliation engine `compare_vendor_terms`.
  - Both lists are indexed by record id; the last record wins, and keys stay in first-occurrence order.
  - Shared ids are visited in an arbitrary order, which stands for Python set order.
  - Each shared id is counted as a match or reported as a `data_mismatch` conflict.
  - Excel-only vendors are collected.
  - QuickBooks-only vendors are collected, each with a `missing_in_excel` conflict.
  - The report is projected into the JSON document, and a reader of that document shows the projection is faithful.
- `ExcelReader` (excel_reader.dfy): what `extract_vendor_list` does with an opened workbook.
  - The header index, in which the last duplicate header wins.
  - `_value` and its bounds handling.
  - The row skip rules.
  - The ID normalisation `str(int(raw))`, falling back to `str(raw).strip()`.
- `QbGateway` (qb_gateway.dfy): the gateway without COM and XML transport.
  - `xml_escape`, held to character-by-character escaping and to an unescaper.
  - The status gate of `_parse_response`.
  - The record-id rule of `fetch_vendor_list`.
  - The request text of `add_vendor_list`, which is read back to the vendors it came from.
  - The tally of its replies.
- `Runner` (runner.dfy): `run_vendor_sync` as a method over the outcomes of its collaborators.
  - It records the calls it makes in a trace.
  - Extract, fetch and compare run in that order.
  - The write-back happens only for a non-empty Excel-only list, and its failures are swallowed.
- `PyStr` (pystr.dfy): the Python built-ins the code relies on: `str.strip`, `str.lower`,
  `str(int)`, `int(str)` and `repr(str)`.
- `Json` (json.dfy): JSON values.
- `Seqs` (seqs.dfy): generic sequence helpers (map, keep-the-present-results, regrouping of concatenations) that the models above are defined through.
- `Wrappers` (wrappers.dfy): `Option` and `Result`.

Python exceptions are values of `Models.PyError` carried in a `Result`. The messages are
those the code writes. For a text `int()` rejects, the message is the one CPython
formats, with the text's repr cut at 200 characters. The digit limit of `int()` is left
out (see "## Left out"). QuickBooks replies are given to the model as the parsed tree, or
as the error the transport raised. The parsed tree holds the first element carrying
`statusCode`, the `VendorRet` records and the `VendorAddRs` elements.

The conflict reason for a vendor present only in QuickBooks is the literal
`"missing_in_excel"`, as models.py and comparer.py write it.

## Model

| member | source | states |
|---|---|---|
| Models.SourceLiteral | src/models.py:5 | a source is written as "excel" or "quickbooks" and nothing else |
| Models.SourceLiteralRoundTrip | src/models.py:5 | the two source literals are distinct and read back as the source they name |
| Models.ReasonLiteral | src/models.py:6-9 | a conflict reason is written as "data_mismatch" or "missing_in_excel" and nothing else |
| Models.ReasonLiteralRoundTrip | src/models.py:6-9 | the two reason literals are distinct and read back as the reason they name |
| Models.NewReport | src/models.py:41-46 | a fresh report has empty excel_only, qb_only and conflicts, and same_vendors 0 |
| Models.VendorReprRoundTrip | src/models.py:20-24 | `repr(vendor)` lists record_id, name and source in that order, each as a `repr` literal, and the vendor can be read back from it exactly |
| PyStr.ReprRoundTrip | src/models.py:22-23 | a `repr` literal reads back as its string, and reading stops just after its closing quote |
| Comparer.IndexById | src/comparer.py:21-22 | the index's keys are the ids of the list; under each id is a record of the list with that id |
| Comparer.IndexKeys | src/comparer.py:21-22 | the dict's key order lists each id of the list exactly once |
| Comparer.IndexLastWins | src/comparer.py:21-22 | on a repeated id, the index holds the last record with that id |
| Comparer.IndexKeysFollowFirstOccurrence | src/comparer.py:21-22 | the keys of a prefix of the list are a prefix of the keys of the whole list, so key order is first-occurrence order |
| Comparer.DistinctIndex | src/comparer.py:21-22 | with unique ids, the keys are the ids in input order and every record is kept |
| Comparer.SharedIdsPartition | src/comparer.py:27-44 | each shared id is a match or a mismatch, never both and never neither; so same_vendors plus mismatches equals the number of shared ids |
| Comparer.CompareShared | src/comparer.py:27-44 | for any visiting order of the shared ids: the match count is the number of shared ids with equal names, and each shared id with different names gets exactly one data_mismatch conflict carrying both names |
| Comparer.CollectExcelOnly | src/comparer.py:47-51 | excel_only is the indexed Excel vendors, in key order, whose id QuickBooks lacks |
| Comparer.CollectQbOnly | src/comparer.py:54-64 | qb_only is the indexed QuickBooks vendors, in key order, whose id Excel lacks, and there is one missing_in_excel conflict per qb_only entry, in the same order |
| Comparer.CompareVendorTerms | src/comparer.py:10-64 | the report is a comparison of the two lists (`IsComparisonOf`), which fixes the whole report: match count, mismatch block, excel_only, qb_only, and all data_mismatch conflicts before all missing_in_excel conflicts; every conflict is about a QuickBooks id and has the shape of its reason |
| Comparer.MismatchBlockComplete | src/comparer.py:32-44 | every conflict of the mismatch block is about a QuickBooks id and carries two names, and the names are unequal |
| Comparer.ConflictsWellFormed | src/comparer.py:32-64 | every conflict has the shape of its reason: data_mismatch has two unequal names; missing_in_excel has no Excel name and has a QuickBooks name |
| Comparer.MissingConflictsAt | src/comparer.py:57-64 | conflict i of the missing block has the id and the QuickBooks name of qb_only entry i, and no Excel name |
| Comparer.OnlyInContents | src/comparer.py:47-64 | a one-sided list holds exactly the ids absent from the other side, each once, each with the record the index holds |
| Comparer.OnlyInCount | src/comparer.py:47-64 | the length of a one-sided list is the size of the id difference |
| Comparer.DisjointInputs | src/comparer.py:27-64 | with no id in common, nothing matches or mismatches; with unique ids, each one-sided list is the whole input list, so there is one missing_in_excel conflict per QuickBooks record |
| Comparer.AgreeingNames | src/comparer.py:32-34 | when all shared names agree, every shared id is a match and there is no data_mismatch conflict |
| Comparer.ReorderedInputs | src/comparer.py:21-64 | reordering an input with unique ids changes neither the index nor the set of one-sided vendors |
| Comparer.OnlyInElements | src/comparer.py:47-64 | the vendors of a one-sided list are the indexed records of the keys the other side lacks |
| Comparer.VendorRoundTrip | src/comparer.py:68-73 | a vendor's JSON object reads back as its record_id and name |
| Comparer.VendorsRoundTrip | src/comparer.py:86 | added_vendors reads back as the projection of excel_only |
| Comparer.AddedProjection | src/comparer.py:86 | the added_vendors projection is one to one and keeps each record_id and name |
| Comparer.ConflictRoundTrip | src/comparer.py:75-81 | a conflict's JSON object reads back as the conflict: record_id, reason, excel_name and qb_name, with None as null |
| Comparer.ConflictsRoundTrip | src/comparer.py:87 | the conflicts array reads back as the report's conflicts, in order |
| Comparer.DocumentRoundTrip | src/comparer.py:83-90 | the document has status "success" and a null error, and reads back as the timestamp, Added(excel_only), the conflicts and same_vendors |
| Json.LookupAt | src/comparer.py:83-90 | a key found first at position i of an object is looked up to the value there |
| ExcelReader.ExtractVendorList | src/excel_reader.py:11-73 | a missing file raises FileNotFoundError naming the path; a missing "vendors" sheet raises the ValueError with the code's message; an empty sheet gives no vendors; otherwise the vendors of the data rows are returned |
| ExcelReader.ReadRows | src/excel_reader.py:43-69 | the row loop yields the vendors of the rows, in row order, with the skip rules applied |
| ExcelReader.HeaderText | src/excel_reader.py:32-34 | an empty header cell names column ""; a numeric one is named by its decimal text |
| ExcelReader.HeaderTextStripped | src/excel_reader.py:33 | column names have no surrounding whitespace |
| ExcelReader.Headers | src/excel_reader.py:32-34 | one column name per header cell, in column order |
| ExcelReader.HeaderIndex | src/excel_reader.py:35 | the index's keys are the header names; each name maps to the last column carrying it |
| ExcelReader.LaterHeaderWins | src/excel_reader.py:35 | of two columns with the same name, the later one is indexed |
| ExcelReader.ValueUnderHeader | src/excel_reader.py:35-41 | under the header index: a column no header names reads as None; a named column reads as the cell under the last header with that name, or as None when the row is too short to reach it |
| ExcelReader.RowVendor | src/excel_reader.py:45-69 | a row that is not skipped yields an Excel vendor with a non-empty name and a non-empty id |
| ExcelReader.ExtractedWellFormed | src/excel_reader.py:48-69 | every extracted vendor is tagged excel, and its name and id are non-empty with no surrounding whitespace |
| ExcelReader.NormaliseIdTrimmed | src/excel_reader.py:58-61 | a normalised id has no surrounding whitespace |
| ExcelReader.NormaliseIdIdempotent | src/excel_reader.py:58-61 | an id typed back in as text normalises to itself, when the original text holds no U+001C to U+001F character |
| ExcelReader.SeparatorPadNotIdempotent | src/excel_reader.py:58-61 | the text "\x1c05" normalises to "05" (`int` rejects it, `strip` drops the separator), and "05" normalises to "5" |
| ExcelReader.NumericIdsAgree | src/excel_reader.py:59 | a numeric ID cell and the same number typed as text give the same record id |
| ExcelReader.PaddedNumericText | src/excel_reader.py:59 | digits with surrounding whitespace that `int` skips and with leading zeros give the record id of the number |
| ExcelReader.ExtractedAppend | src/excel_reader.py:45-69 | rows are read independently: two runs of rows yield their vendors one after the other |
| ExcelReader.ExtractedAtMostRows | src/excel_reader.py:45-69 | at most one vendor comes from each data row |
| ExcelReader.WellFilledRow | src/excel_reader.py:45-69 | a row with a numeric ID and a non-blank name yields exactly that vendor, with the name stripped |
| PyStr.StripBlank | src/excel_reader.py:51-53 | a stripped name is empty exactly when it is all whitespace |
| PyStr.StripIdempotent | src/excel_reader.py:51 | stripping twice is stripping once |
| PyStr.StripPadded | src/excel_reader.py:51 | strip removes exactly the surrounding whitespace |
| PyStr.NatToDecimal | src/excel_reader.py:59 | `str(n)` of a natural number is non-empty decimal digits denoting n, with no leading zero |
| PyStr.IntToStrRoundTrip | src/excel_reader.py:59 | `int(str(n)) == n` |
| PyStr.IntToStrStripped | src/excel_reader.py:59 | `str(n)` is non-empty, has no surrounding whitespace and holds no U+001C to U+001F character |
| PyStr.InfoSeparatorRejected | src/qb_gateway.py:64-68 | `strip` drops a leading U+001C, but `int` rejects a text holding one: `int("\x1c5")` raises while `int("5") == 5` |
| QbGateway.ReplaceChar | src/qb_gateway.py:117-121 | replacing a character absent from the text changes nothing; a character absent from the replacement is absent from the result |
| QbGateway.XmlEscapeIsCharwise | src/qb_gateway.py:114-122 | the replacement chain, with the ampersand first, is character-by-character escaping into the predefined entities of XML 1.0 section 4.6 |
| QbGateway.XmlEscapeAppend | src/qb_gateway.py:114-122 | escaping distributes over concatenation |
| QbGateway.XmlEscapeWellFormed | src/qb_gateway.py:114-122 | no raw `<`, `>`, `"` or `'` is left, and unescaping the entities gives the text back |
| QbGateway.XmlEscapePlain | src/qb_gateway.py:114-122 | text without the five special characters is unchanged |
| QbGateway.CheckStatus | src/qb_gateway.py:60-75 | a reply passes exactly when it has a status element whose code reads as 0, 1 or 3100 |
| QbGateway.StatusCodesAccepted | src/qb_gateway.py:64-75 | exactly codes 0, 1 and 3100 pass; any other code raises RuntimeError("QuickBooks Error <code>: <message>") |
| QbGateway.NonNumericStatusPasses | src/qb_gateway.py:64-68 | a missing code, or one `int` rejects, counts as 0 and passes |
| QbGateway.MissingStatusFails | src/qb_gateway.py:60-62 | a reply with no status element raises "QuickBooks response missing status information" |
| QbGateway.Text | src/qb_gateway.py:93-94 | a missing element reads as "", and stripping never lengthens the text |
| QbGateway.TextStripped | src/qb_gateway.py:93-94 | the text read has no surrounding whitespace |
| QbGateway.VendorFromRet | src/qb_gateway.py:102-103 | a VendorRet yields a vendor exactly when its name or record id is non-empty, and then the vendor is tagged quickbooks |
| QbGateway.SelectRecordId | src/qb_gateway.py:94-101 | the record id is the own fax when it is not blank; otherwise it is the value of the first contact named "fax" in any case with a non-blank value |
| QbGateway.OwnFaxFirst | src/qb_gateway.py:94-95 | a non-blank own fax is the record id, whatever the contacts hold |
| QbGateway.FirstFaxContact | src/qb_gateway.py:95-101 | otherwise the first contact supplying a fax gives the record id, and later contacts are ignored |
| QbGateway.NoFaxContact | src/qb_gateway.py:95-101 | with no contact supplying a fax, the record id from contacts is "" |
| QbGateway.FetchVendorList | src/qb_gateway.py:80-104 | the VendorQueryRq request is sent; a rejected reply's error propagates; otherwise one vendor per VendorRet with a name or record id, in document order |
| QbGateway.FetchedWellFormed | src/qb_gateway.py:92-103 | every fetched vendor is tagged quickbooks and has a name or a record id, neither with surrounding whitespace |
| QbGateway.FetchedAppend | src/qb_gateway.py:92-103 | records are fetched independently and in order |
| QbGateway.RequestBlocksTail | src/qb_gateway.py:126-139 | the first block is the first vendor's block and the remaining blocks are those of the remaining vendors, so there is one VendorAddRq block per vendor, in input order |
| QbGateway.RequestBlocksStep | src/qb_gateway.py:126-139 | building the blocks one vendor at a time appends that vendor's block |
| QbGateway.BuildBatch | src/qb_gateway.py:126-152 | the blocks are joined by newlines and put inside the continueOnError envelope |
| QbGateway.BlockRoundTrip | src/qb_gateway.py:127-139 | a block can be read back as the escaped request id, the escaped name and an escaped fax equal to the request id, with the text after it left untouched |
| QbGateway.BlocksRoundTrip | src/qb_gateway.py:141-152 | the blocks, joined by newlines and followed by the foot, read back as the vendors' (record id, name) pairs in order |
| QbGateway.BatchRoundTrip | src/qb_gateway.py:126-152 | the batch request determines its vendors: each vendor's record id (as request id and fax) and name read back exactly, in input order |
| QbGateway.TallyReplies | src/qb_gateway.py:159-172 | the reply loop computes the tally of the replies |
| QbGateway.TallyErrorSticks | src/qb_gateway.py:162-163 | after a code `int` rejects, later replies do not change the outcome |
| QbGateway.TallySucceeds | src/qb_gateway.py:162-163 | the tally succeeds exactly when every code is an integer |
| QbGateway.TallyFirstError | src/qb_gateway.py:163 | the first rejected code is the one the ValueError names |
| QbGateway.IntErrorNamesText | src/qb_gateway.py:163 | `int()`'s ValueError message is the fixed prefix and the text's repr, cut at 200 characters; a repr within the limit reads back as the text |
| QbGateway.TallyCounts | src/qb_gateway.py:159-172 | added counts code 0, skipped_existing counts code 3100, and together they never exceed the replies |
| QbGateway.TallyOutcome | src/qb_gateway.py:159-172 | stated for the replies: success exactly when all codes are integers, and then the counts of codes 0 and 3100 |
| QbGateway.AddVendorList | src/qb_gateway.py:107-172 | an empty list sends nothing; otherwise the batch request is sent, a rejected reply's error propagates, and the replies are tallied |
| Runner.ReportPathChoice | src/runner.py:27 | the report path is never empty; the default name is used exactly when no non-empty path is given, or when the given path is the default name |
| Runner.RunVendorSync | src/runner.py:12-49 | extract, then fetch, then compare with json_path equal to the report path; see the notes after this table |
| Runner.FetchAndReport | src/runner.py:33-49 | a rejected fetch ends with its error after the one fetch call; otherwise the calls are fetch, compare and then the write-back calls, a failed report write ends with that error, and otherwise the result is the report path and the document is that of a full comparison (`WrittenReport`) |
| Runner.ReportAndWriteBack | src/runner.py:36-49 | a failed report write ends with that error and makes no further call; otherwise the result is the report path, the write-back calls are those of the Excel-only list, and the document is that of a full comparison of the two lists (`WrittenReport`) |
| Runner.CompareAndReport | src/runner.py:36-40 | the report returned is a full comparison of the two lists (`IsComparisonOf`), the document is that report's JSON document with the timestamp, and its excel_only is the Excel-only list |
| Runner.WrittenReportReadsBack | src/runner.py:36-40 | a written report reads back as the timestamp, Added(excel_only), the match count, the mismatch block and one missing_in_excel conflict per QuickBooks-only vendor |
| Runner.WriteBack | src/runner.py:43-47 | add_vendor_list is called only for a non-empty list, and exactly with that list |

`Runner.RunVendorSync` also states the following:

- An error from extract, fetch or the report write ends the run with that error, after exactly the calls made so far.
- Otherwise the result is the report path, whatever the write-back's reply was, and the document written is that of a full comparison of the two lists (`WrittenReport`).
- The whole trace is stated in every case: extract, fetch and compare, then the write-back call when the Excel-only list is non-empty.

## Left out

- COM transport and session handling (`_require_win32com`, `_qb_session`, `_send_qbxml`): a reply is an input. Transport errors such as the missing-pywin32 RuntimeError are an `Err` reply.
- XML parsing (`ET.fromstring`, `find`, `findall`, `findtext`): the parsed tree is an input. The model does not tie the status element to the `VendorAddRs` elements by document position.
- openpyxl loading and closing of the workbook: the workbook is an input, with `None` for a missing file.
- Float and boolean cells: cells are None, text or integers. `int(30.0)` and `str(True)` are not modelled.
- The clock: `datetime.now(timezone.utc).isoformat()` is an input string.
- JSON file writing and `json.dump` formatting: the document is a value, and a write failure is an input error.
- Every `print`, including the warning printed when the write-back fails and the per-reply messages of `add_vendor_list`.
- ExtractVendorList: `Path` normalisation is left out; the path text is used as given in the FileNotFoundError message.
- Runner.RunVendorSync: `Path` normalisation of the report path is left out. The returned path is the text chosen. Exceptions other than the modelled errors are not modelled.
- PyStr: `str.lower` is ASCII only, and `int` accepts only ASCII digits.
- ExcelReader.NormaliseIdIdempotent: holds only for texts without U+001C to U+001F. `int` does not skip those characters, so `str(raw).strip()` can leave a number that normalises again to a different id (ExcelReader.SeparatorPadNotIdempotent).
- PyStr.ParseInt: the limit on the number of digits `int()` accepts (4300 digits by default in Python 3.11 and later) is not modelled; longer digit strings are parsed. So three behaviours of the code are not modelled. `_parse_response` would read such a status code as 0 and let the reply pass (qb_gateway.py:64-68). `extract_vendor_list` would fall back to `str(raw).strip()` for such an ID (excel_reader.py:58-61). `add_vendor_list` would raise the digit-limit ValueError, not the one in QbGateway.IntError.
- PyStr: `repr` escapes characters below 0x20 and 0x7f, but not other non-printable non-ASCII characters.
- src/cli.py, src/reporting.py, src/test.py and src/__main__.py are not part of this model.
- Comparer.CompareVendorTerms: the order of data_mismatch conflicts is any order of the shared-id set. Python's actual set order is not modelled.
