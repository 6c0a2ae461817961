/** `run_vendor_sync` (runner.py): reads both sides, compares them and writes the report,
    then offers the Excel-only vendors to QuickBooks. The workbook, the two QuickBooks
    replies, the outcome of writing the report and the timestamp are inputs; the calls
    made are recorded in a trace. */
module Runner {
  import opened Wrappers
  import opened Models
  import opened Json
  import opened ExcelReader
  import opened QbGateway
  import opened Comparer
  import opened Seqs

  const DefaultReportName := "comparison_report.json"

  /** `Path(output_path) if output_path else Path(DEFAULT_REPORT_NAME)`: an absent or empty
      output path falls back to the default name. */
  function ReportPath(outputPath: Option<string>): string {
    if outputPath.Some? && outputPath.value != "" then outputPath.value else DefaultReportName
  }

  /** The report path is never empty, and a given non-empty path is used as it is. */
  lemma ReportPathChoice(outputPath: Option<string>)
    ensures ReportPath(outputPath) != ""
    ensures ReportPath(outputPath) == DefaultReportName <==>
      outputPath.None? || outputPath.value == "" || outputPath.value == DefaultReportName
  {
  }

  /** A call `run_vendor_sync` makes into the other modules. */
  datatype Call =
    | ExtractVendors(workbookPath: string)
    | FetchVendors(companyFile: string)
    | CompareVendors(excel: seq<Vendor>, qb: seq<Vendor>, jsonPath: string)
    | AddVendors(vendors: seq<Vendor>)

  /** The vendors a comparison finds only in Excel. */
  function ExcelOnly(excel: seq<Vendor>, qb: seq<Vendor>): seq<Vendor> {
    OnlyIn(IndexKeys(excel), IndexById(excel), IndexById(qb))
  }

  /** `document` is the JSON document of a comparison of the two lists, stamped with
      `generatedAt`. The comparison is one of those that differ only in the order of the
      mismatch block (Python set order). */
  ghost predicate WrittenReport(document: Json, generatedAt: string, excel: seq<Vendor>, qb: seq<Vendor>) {
    exists report :: IsComparisonOf(excel, qb, report) && document == ReportDocument(report, generatedAt)
  }

  /** What a reader of the written report finds: the timestamp, the projection of the
      Excel-only vendors, the match count, the mismatch block and then one missing_in_excel
      conflict per QuickBooks-only vendor. */
  lemma WrittenReportReadsBack(document: Json, generatedAt: string, excel: seq<Vendor>, qb: seq<Vendor>)
    requires WrittenReport(document, generatedAt, excel, qb)
    ensures var view := ReadDocument(document);
      var e, q := IndexById(excel), IndexById(qb);
      var k := |DifferIn(SharedIds(e, q), e, q)|;
      var qbOnly := OnlyIn(IndexKeys(qb), q, e);
      && view.Some?
      && view.value.generatedAt == generatedAt
      && view.value.addedVendors == Added(ExcelOnly(excel, qb))
      && view.value.sameVendors == |SameIn(SharedIds(e, q), e, q)|
      && |view.value.conflicts| == k + |qbOnly|
      && IsMismatchBlock(view.value.conflicts[..k], e, q)
      && view.value.conflicts[k..] == MissingConflicts(qbOnly)
  {
    var report :| IsComparisonOf(excel, qb, report) && document == ReportDocument(report, generatedAt);
    DocumentRoundTrip(report, generatedAt);
  }

  /** The calls the write-back step makes for an Excel-only list. */
  function WriteBackCalls(excelOnly: seq<Vendor>): seq<Call> {
    if excelOnly == [] then [] else [AddVendors(excelOnly)]
  }

  /** `run_vendor_sync(company_file, workbook_path, output_path=...)`.
      Errors of the extract, fetch and compare steps propagate (`writeError` is the error,
      if any, of writing the report file); the write-back runs only for a non-empty
      Excel-only list, and whatever it raises is swallowed. */
  method RunVendorSync(
    companyFile: string, workbookPath: string, outputPath: Option<string>,
    workbook: Option<Workbook>, queryReply: Result<QbResponse, PyError>,
    writeError: Option<PyError>, generatedAt: string, addReply: Result<QbResponse, PyError>)
    returns (result: Result<string, PyError>, trace: seq<Call>, document: Option<Json>)
    ensures var ex := Extraction(workbookPath, workbook);
      ex.Err? ==> result == Err(ex.error) && trace == [ExtractVendors(workbookPath)] && document == None
    ensures var ex, fe := Extraction(workbookPath, workbook), Fetching(queryReply);
      ex.Ok? && fe.Err? ==>
        && result == Err(fe.error) && document == None
        && trace == [ExtractVendors(workbookPath), FetchVendors(companyFile)]
    ensures var ex, fe := Extraction(workbookPath, workbook), Fetching(queryReply);
      ex.Ok? && fe.Ok? && writeError.Some? ==>
        && result == Err(writeError.value) && document == None
        && trace == [ExtractVendors(workbookPath), FetchVendors(companyFile),
                     CompareVendors(ex.value, fe.value, ReportPath(outputPath))]
    ensures var ex, fe := Extraction(workbookPath, workbook), Fetching(queryReply);
      ex.Ok? && fe.Ok? && writeError.None? ==>
        && result == Ok(ReportPath(outputPath))
        && trace == [ExtractVendors(workbookPath), FetchVendors(companyFile),
                     CompareVendors(ex.value, fe.value, ReportPath(outputPath))]
                    + WriteBackCalls(ExcelOnly(ex.value, fe.value))
        && document.Some? && WrittenReport(document.value, generatedAt, ex.value, fe.value)
  {
    var reportPath := ReportPath(outputPath);
    // 1. Excel vendors
    var excelVendors := ExtractVendorList(workbookPath, workbook);
    if excelVendors.Err? {
      return Err(excelVendors.error), [ExtractVendors(workbookPath)], None;
    }
    // 2. to 4.
    var calls;
    result, calls, document :=
      FetchAndReport(companyFile, excelVendors.value, reportPath, queryReply, writeError, generatedAt, addReply);
    trace := [ExtractVendors(workbookPath)] + calls;
    ghost var fe := Fetching(queryReply);
    if fe.Ok? {
      PrependOne(ExtractVendors(workbookPath), FetchVendors(companyFile),
                 CompareVendors(excelVendors.value, fe.value, reportPath),
                 WriteBackCalls(ExcelOnly(excelVendors.value, fe.value)));
    } else {
      PrependOne(ExtractVendors(workbookPath), FetchVendors(companyFile), FetchVendors(companyFile), []);
    }
  }

  /** Steps 2 to 4, once the Excel vendors are read: fetch, then compare, write the report
      and offer the Excel-only vendors. */
  method FetchAndReport(
    companyFile: string, excel: seq<Vendor>, reportPath: string, queryReply: Result<QbResponse, PyError>,
    writeError: Option<PyError>, generatedAt: string, addReply: Result<QbResponse, PyError>)
    returns (result: Result<string, PyError>, calls: seq<Call>, document: Option<Json>)
    ensures var fe := Fetching(queryReply);
      fe.Err? ==> result == Err(fe.error) && calls == [FetchVendors(companyFile)] && document == None
    ensures var fe := Fetching(queryReply);
      fe.Ok? && writeError.Some? ==>
        && result == Err(writeError.value) && document == None
        && calls == [FetchVendors(companyFile), CompareVendors(excel, fe.value, reportPath)]
    ensures var fe := Fetching(queryReply);
      fe.Ok? && writeError.None? ==>
        && result == Ok(reportPath)
        && calls == [FetchVendors(companyFile), CompareVendors(excel, fe.value, reportPath)]
                    + WriteBackCalls(ExcelOnly(excel, fe.value))
        && document.Some? && WrittenReport(document.value, generatedAt, excel, fe.value)
  {
    // 2. QuickBooks vendors
    var query, qbVendors := FetchVendorList(queryReply);
    if qbVendors.Err? {
      return Err(qbVendors.error), [FetchVendors(companyFile)], None;
    }
    // 3. and 4.
    var more;
    result, more, document :=
      ReportAndWriteBack(excel, qbVendors.value, reportPath, writeError, generatedAt, addReply);
    calls := [FetchVendors(companyFile), CompareVendors(excel, qbVendors.value, reportPath)] + more;
  }

  /** Steps 3 and 4: compare, write the report, then offer the Excel-only vendors. */
  method ReportAndWriteBack(
    excel: seq<Vendor>, qb: seq<Vendor>, reportPath: string,
    writeError: Option<PyError>, generatedAt: string, addReply: Result<QbResponse, PyError>)
    returns (result: Result<string, PyError>, calls: seq<Call>, document: Option<Json>)
    ensures writeError.Some? ==> result == Err(writeError.value) && calls == [] && document == None
    ensures writeError.None? ==>
      && result == Ok(reportPath)
      && calls == WriteBackCalls(ExcelOnly(excel, qb))
      && document.Some? && WrittenReport(document.value, generatedAt, excel, qb)
  {
    var report, doc := CompareAndReport(excel, qb, generatedAt);
    if writeError.Some? {
      return Err(writeError.value), [], None;
    }
    calls := WriteBack(report.excelOnly, addReply);
    return Ok(reportPath), calls, Some(doc);
  }

  /** Step 3: the comparison and the document it writes. */
  method CompareAndReport(excel: seq<Vendor>, qb: seq<Vendor>, generatedAt: string)
    returns (report: ComparisonReport, document: Json)
    ensures IsComparisonOf(excel, qb, report)
    ensures document == ReportDocument(report, generatedAt)
    ensures report.excelOnly == ExcelOnly(excel, qb)
    ensures WrittenReport(document, generatedAt, excel, qb)
  {
    report := CompareVendorTerms(excel, qb);
    document := ReportDocument(report, generatedAt);
  }

  /** Step 4: `add_vendor_list` is called only for a non-empty list; its outcome, error or
      not, is dropped. */
  method WriteBack(excelOnly: seq<Vendor>, addReply: Result<QbResponse, PyError>) returns (calls: seq<Call>)
    ensures calls == WriteBackCalls(excelOnly)
  {
    calls := [];
    if excelOnly != [] {
      calls := [AddVendors(excelOnly)];
      var sent, added := AddVendorList(excelOnly, addReply);
    }
  }
}
