/** The records shared by every part of the vendor sync (models.py): vendors, the
    conflicts found between the two sides, and the comparison report, together with
    the two literal enumerations they use and the exceptions the core raises. */
module Models {
  import opened Wrappers
  import opened Seqs
  import opened PyStr

  /** `SourceLiteral`: the side a vendor record was read from. */
  datatype Source = Excel | QuickBooks

  function SourceLiteral(s: Source): (r: string)
    ensures r == "excel" || r == "quickbooks"
  {
    match s
    case Excel => "excel"
    case QuickBooks => "quickbooks"
  }

  function SourceFromLiteral(t: string): (r: Option<Source>)
    ensures r.Some? <==> t == "excel" || t == "quickbooks"
  {
    if t == "excel" then Some(Excel)
    else if t == "quickbooks" then Some(QuickBooks)
    else None
  }

  /** The two source literals are distinct and read back as the source they name. */
  lemma SourceLiteralRoundTrip(s: Source)
    ensures SourceFromLiteral(SourceLiteral(s)) == Some(s)
  {
    assert "excel" != "quickbooks";
  }

  /** `ConflictReason`. */
  datatype ConflictReason = DataMismatch | MissingInExcel

  function ReasonLiteral(r: ConflictReason): (t: string)
    ensures t == "data_mismatch" || t == "missing_in_excel"
  {
    match r
    case DataMismatch => "data_mismatch"
    case MissingInExcel => "missing_in_excel"
  }

  function ReasonFromLiteral(t: string): (r: Option<ConflictReason>)
    ensures r.Some? <==> t == "data_mismatch" || t == "missing_in_excel"
  {
    if t == "data_mismatch" then Some(DataMismatch)
    else if t == "missing_in_excel" then Some(MissingInExcel)
    else None
  }

  lemma ReasonLiteralRoundTrip(r: ConflictReason)
    ensures ReasonFromLiteral(ReasonLiteral(r)) == Some(r)
  {
    assert "data_mismatch" != "missing_in_excel";
  }

  /** A vendor as read from either side; `recordId` is the key both sides are compared on. */
  datatype Vendor = Vendor(recordId: string, name: string, source: Source)

  /** A discrepancy between the two sides: the id is always there, either name may be absent. */
  datatype Conflict = Conflict(
    recordId: string,
    excelName: Option<string>,
    qbName: Option<string>,
    reason: ConflictReason)

  /** The shapes the engine gives conflicts: a mismatch names both, differing, sides;
      a vendor missing from Excel has no Excel name and a QuickBooks name. */
  predicate WellFormedConflict(c: Conflict) {
    match c.reason
    case DataMismatch => c.excelName.Some? && c.qbName.Some? && c.excelName.value != c.qbName.value
    case MissingInExcel => c.excelName.None? && c.qbName.Some?
  }

  datatype ComparisonReport = ComparisonReport(
    excelOnly: seq<Vendor>,
    qbOnly: seq<Vendor>,
    conflicts: seq<Conflict>,
    sameVendors: int)

  /** `ComparisonReport()` with every field at its default. */
  function NewReport(): (r: ComparisonReport)
    ensures r.excelOnly == [] && r.qbOnly == [] && r.conflicts == []
    ensures r.sameVendors == 0
  {
    ComparisonReport([], [], [], 0)
  }

  /** The Python exceptions the core raises, with their messages. */
  datatype PyError =
    | FileNotFoundError(message: string)
    | ValueError(message: string)
    | RuntimeError(message: string)
    | OSError(message: string)

  // ----------------------------------------------------------- Vendor.__repr__

  const ReprHead := "Vendor(record_id="
  const ReprNameSep := ", name="
  const ReprSourceSep := ", source="

  /** `repr(v)`: each field rendered by `repr`, in the order record_id, name, source. */
  function VendorRepr(v: Vendor): string {
    ReprHead + Repr(v.recordId) + ReprNameSep + Repr(v.name) + ReprSourceSep
    + Repr(SourceLiteral(v.source)) + ")"
  }

  /** Reads a vendor back from its `repr`. */
  function ParseVendorRepr(t: string): Option<Vendor> {
    if !StartsWith(t, ReprHead) then None
    else match ParseRepr(t[|ReprHead|..])
      case None => None
      case Some((id, r1)) =>
        if !StartsWith(r1, ReprNameSep) then None
        else match ParseRepr(r1[|ReprNameSep|..])
          case None => None
          case Some((name, r2)) =>
            if !StartsWith(r2, ReprSourceSep) then None
            else match ParseRepr(r2[|ReprSourceSep|..])
              case None => None
              case Some((src, r3)) =>
                match SourceFromLiteral(src)
                case None => None
                case Some(source) => if r3 == ")" then Some(Vendor(id, name, source)) else None
  }

  /** The `repr` of a vendor determines the vendor: all three fields can be read back,
      in the order they are written. */
  lemma VendorReprRoundTrip(v: Vendor)
    ensures ParseVendorRepr(VendorRepr(v)) == Some(v)
  {
    var a, b, c := Repr(v.recordId), Repr(v.name), Repr(SourceLiteral(v.source));
    var r2 := ReprSourceSep + (c + ")");
    var r1 := ReprNameSep + (b + r2);
    SevenNested(ReprHead, a, ReprNameSep, b, ReprSourceSep, c, ")");
    assert VendorRepr(v) == ReprHead + (a + r1);
    AfterPrefix(ReprHead, a + r1);
    ReprRoundTrip(v.recordId, r1);
    AfterPrefix(ReprNameSep, b + r2);
    ReprRoundTrip(v.name, r2);
    AfterPrefix(ReprSourceSep, c + ")");
    ReprRoundTrip(SourceLiteral(v.source), ")");
    SourceLiteralRoundTrip(v.source);
  }
}
