/** The QuickBooks side of the sync (qb_gateway.py), with the COM session and the XML
    parser taken out: a reply is the parsed response (or the error the transport raised),
    given as an input; what the gateway does with it is modelled. */
module QbGateway {
  import opened Wrappers
  import opened PyStr
  import opened Models
  import opened Seqs

  // ------------------------------------------------------------------ xml_escape

  /** `s.replace(c, rep)` for a one-character pattern. */
  function ReplaceChar(s: string, c: char, rep: string): (r: string)
    ensures c !in s ==> r == s
    ensures c !in rep ==> c !in r
  {
    if s == [] then []
    else (if s[0] == c then rep else [s[0]]) + ReplaceChar(s[1..], c, rep)
  }

  /** `xml_escape(text)`: five replacements in turn, the ampersand first. */
  function XmlEscape(text: string): string {
    ReplaceChar(ReplaceChar(ReplaceChar(ReplaceChar(ReplaceChar(
      text, '&', "&amp;"), '<', "&lt;"), '>', "&gt;"), '"', "&quot;"), '\'', "&apos;")
  }

  predicate IsSpecial(c: char) {
    c == '&' || c == '<' || c == '>' || c == '"' || c == '\''
  }

  /** The predefined entity of section 4.6 of XML 1.0 that stands for `c`, if `c` needs one. */
  function EscapeChar(c: char): string {
    if c == '&' then "&amp;"
    else if c == '<' then "&lt;"
    else if c == '>' then "&gt;"
    else if c == '"' then "&quot;"
    else if c == '\'' then "&apos;"
    else [c]
  }

  /** Character-by-character escaping, the reference the replacement chain is held to. */
  function EscapeEach(s: string): string {
    if s == [] then [] else EscapeChar(s[0]) + EscapeEach(s[1..])
  }

  /** Reads entities back; None on an ampersand that starts none of the five. */
  function XmlUnescape(t: string): Option<string>
    decreases |t|
  {
    if t == [] then Some([])
    else if t[0] != '&' then Cons(t[0], XmlUnescape(t[1..]))
    else if StartsWith(t, "&amp;") then Cons('&', XmlUnescape(t[5..]))
    else if StartsWith(t, "&lt;") then Cons('<', XmlUnescape(t[4..]))
    else if StartsWith(t, "&gt;") then Cons('>', XmlUnescape(t[4..]))
    else if StartsWith(t, "&quot;") then Cons('"', XmlUnescape(t[6..]))
    else if StartsWith(t, "&apos;") then Cons('\'', XmlUnescape(t[6..]))
    else None
  }

  function Cons(c: char, r: Option<string>): Option<string> {
    match r
    case None => None
    case Some(s) => Some([c] + s)
  }

  lemma {:induction false} ReplaceCharAppend(a: string, b: string, c: char, rep: string)
    ensures ReplaceChar(a + b, c, rep) == ReplaceChar(a, c, rep) + ReplaceChar(b, c, rep)
    decreases |a|
  {
    if a == [] {
      assert a + b == b;
    } else {
      assert (a + b)[1..] == a[1..] + b;
      ReplaceCharAppend(a[1..], b, c, rep);
    }
  }

  lemma XmlEscapeAppend(a: string, b: string)
    ensures XmlEscape(a + b) == XmlEscape(a) + XmlEscape(b)
  {
    var a1, b1 := ReplaceChar(a, '&', "&amp;"), ReplaceChar(b, '&', "&amp;");
    ReplaceCharAppend(a, b, '&', "&amp;");
    var a2, b2 := ReplaceChar(a1, '<', "&lt;"), ReplaceChar(b1, '<', "&lt;");
    ReplaceCharAppend(a1, b1, '<', "&lt;");
    var a3, b3 := ReplaceChar(a2, '>', "&gt;"), ReplaceChar(b2, '>', "&gt;");
    ReplaceCharAppend(a2, b2, '>', "&gt;");
    var a4, b4 := ReplaceChar(a3, '"', "&quot;"), ReplaceChar(b3, '"', "&quot;");
    ReplaceCharAppend(a3, b3, '"', "&quot;");
    ReplaceCharAppend(a4, b4, '\'', "&apos;");
  }

  lemma XmlEscapeChar(c: char)
    ensures XmlEscape([c]) == EscapeChar(c)
  {
    ReplaceOne(c, '&', "&amp;");
    if c == '&' {
      assert '<' !in "&amp;" && '>' !in "&amp;" && '"' !in "&amp;" && '\'' !in "&amp;";
      return;
    }
    ReplaceOne(c, '<', "&lt;");
    if c == '<' {
      assert '>' !in "&lt;" && '"' !in "&lt;" && '\'' !in "&lt;";
      return;
    }
    ReplaceOne(c, '>', "&gt;");
    if c == '>' {
      assert '"' !in "&gt;" && '\'' !in "&gt;";
      return;
    }
    ReplaceOne(c, '"', "&quot;");
    if c == '"' {
      assert '\'' !in "&quot;";
      return;
    }
    ReplaceOne(c, '\'', "&apos;");
  }

  lemma ReplaceOne(x: char, c: char, rep: string)
    ensures ReplaceChar([x], c, rep) == if x == c then rep else [x]
  {
    assert [x][1..] == [];
  }

  /** The replacement chain escapes each character on its own: replacing `&` first means
      no entity introduced by a later step is escaped again. */
  lemma {:induction false} XmlEscapeIsCharwise(s: string)
    ensures XmlEscape(s) == EscapeEach(s)
    decreases |s|
  {
    if s != [] {
      assert s == [s[0]] + s[1..];
      XmlEscapeAppend([s[0]], s[1..]);
      XmlEscapeChar(s[0]);
      XmlEscapeIsCharwise(s[1..]);
    }
  }

  lemma {:induction false} EscapeEachNoRaw(s: string)
    ensures forall c :: c in EscapeEach(s) && IsSpecial(c) ==> c == '&'
    decreases |s|
  {
    if s != [] {
      EscapeEachNoRaw(s[1..]);
    }
  }

  lemma EscapeCharUnescape(c: char, rest: string)
    ensures XmlUnescape(EscapeChar(c) + rest) == Cons(c, XmlUnescape(rest))
  {
    var t := EscapeChar(c) + rest;
    if c == '&' {
      assert StartsWith(t, "&amp;") && t[5..] == rest;
    } else if c == '<' {
      assert !StartsWith(t, "&amp;") by { assert t[1] == 'l'; }
      assert StartsWith(t, "&lt;") && t[4..] == rest;
    } else if c == '>' {
      assert !StartsWith(t, "&amp;") && !StartsWith(t, "&lt;") by { assert t[1] == 'g'; }
      assert StartsWith(t, "&gt;") && t[4..] == rest;
    } else if c == '"' {
      assert !StartsWith(t, "&amp;") && !StartsWith(t, "&lt;") && !StartsWith(t, "&gt;") by { assert t[1] == 'q'; }
      assert StartsWith(t, "&quot;") && t[6..] == rest;
    } else if c == '\'' {
      assert !StartsWith(t, "&amp;") && !StartsWith(t, "&lt;") && !StartsWith(t, "&gt;")
        && !StartsWith(t, "&quot;") by { assert t[1] == 'a' && t[2] == 'p'; }
      assert StartsWith(t, "&apos;") && t[6..] == rest;
    } else {
      assert t[0] == c && t[1..] == rest;
    }
  }

  lemma {:induction false} EscapeEachUnescape(s: string)
    ensures XmlUnescape(EscapeEach(s)) == Some(s)
    decreases |s|
  {
    if s != [] {
      EscapeCharUnescape(s[0], EscapeEach(s[1..]));
      EscapeEachUnescape(s[1..]);
      assert [s[0]] + s[1..] == s;
    }
  }

  /** What `xml_escape` guarantees: no raw `<`, `>`, `"` or `'` is left, and every `&`
      starts one of the five entities, so that reading the entities back gives the text. */
  lemma XmlEscapeWellFormed(s: string)
    ensures '<' !in XmlEscape(s) && '>' !in XmlEscape(s) && '"' !in XmlEscape(s) && '\'' !in XmlEscape(s)
    ensures XmlUnescape(XmlEscape(s)) == Some(s)
  {
    XmlEscapeIsCharwise(s);
    EscapeEachNoRaw(s);
    EscapeEachUnescape(s);
  }

  /** Text with none of the five special characters is left as it is. */
  lemma XmlEscapePlain(s: string)
    requires forall c :: c in s ==> !IsSpecial(c)
    ensures XmlEscape(s) == s
  {
  }

  // ---------------------------------------------------------------- status gate

  /** An element of a parsed reply carrying `statusCode`, with its two attributes. */
  datatype StatusElement = StatusElement(statusCode: Option<string>, statusMessage: Option<string>)

  /** A reply as the XML parser delivers it: the first element carrying a status code, the
      `VendorRet` records and the `VendorAddRs` elements, each in document order. */
  datatype QbResponse = QbResponse(
    status: Option<StatusElement>,
    vendorRets: seq<VendorRet>,
    addResponses: seq<StatusElement>)

  function GetOr(o: Option<string>, default: string): string {
    if o.Some? then o.value else default
  }

  /** The status code `_parse_response` reads: a missing attribute is "0", text `int`
      rejects counts as 0. */
  function GateCode(el: StatusElement): int {
    var p := ParseInt(GetOr(el.statusCode, "0"));
    if p.Some? then p.value else 0
  }

  predicate Accepted(code: int) {
    code == 0 || code == 1 || code == 3100
  }

  /** `_parse_response` minus `ET.fromstring`: the error it raises, if any. */
  function CheckStatus(status: Option<StatusElement>): (err: Option<PyError>)
    ensures err.None? <==> status.Some? && Accepted(GateCode(status.value))
  {
    match status
    case None => Some(RuntimeError("QuickBooks response missing status information"))
    case Some(el) =>
      var code := GateCode(el);
      if Accepted(code) then None
      else Some(RuntimeError("QuickBooks Error " + IntToStr(code) + ": " + GetOr(el.statusMessage, "")))
  }

  /** `_send_qbxml`: the transport's reply, passed through the status gate. */
  function Gate(reply: Result<QbResponse, PyError>): Result<QbResponse, PyError> {
    match reply
    case Err(e) => Err(e)
    case Ok(root) =>
      var err := CheckStatus(root.status);
      if err.Some? then Err(err.value) else Ok(root)
  }

  /** Exactly the codes 0, 1 and 3100 pass the gate; any other code raises an error
      naming it and the status message. */
  lemma StatusCodesAccepted(n: int, message: Option<string>)
    ensures var el := StatusElement(Some(IntToStr(n)), message);
      && (CheckStatus(Some(el)).None? <==> n == 0 || n == 1 || n == 3100)
      && (CheckStatus(Some(el)).Some? ==>
            CheckStatus(Some(el)) == Some(RuntimeError("QuickBooks Error " + IntToStr(n) + ": " + GetOr(message, ""))))
  {
    IntToStrRoundTrip(n);
  }

  /** A status code that is not an integer, or no code at all, counts as success. */
  lemma NonNumericStatusPasses(code: Option<string>, message: Option<string>)
    requires code.Some? ==> ParseInt(code.value).None?
    ensures CheckStatus(Some(StatusElement(code, message))) == None
  {
    if code.None? {
      IntToStrRoundTrip(0);
      assert NatToDecimal(0) == "0";
    }
  }

  /** A reply without any status element is an error. */
  lemma MissingStatusFails(root: QbResponse)
    requires root.status.None?
    ensures Gate(Ok(root)) == Err(RuntimeError("QuickBooks response missing status information"))
  {
  }

  // ---------------------------------------------------------- fetch_vendor_list

  const VendorQuery :=
    "<?xml version=\"1.0\"?>\n<?qbxml version=\"13.0\"?>\n<QBXML>\n  <QBXMLMsgsRq onError=\"stopOnError\">\n"
    + "    <VendorQueryRq/>\n  </QBXMLMsgsRq>\n</QBXML>"

  /** An `AdditionalContactRef`: `findtext` gives None for a missing child element. */
  datatype ContactRef = ContactRef(contactName: Option<string>, contactValue: Option<string>)

  /** A `VendorRet` record with the children the gateway reads. */
  datatype VendorRet = VendorRet(name: Option<string>, fax: Option<string>, contacts: seq<ContactRef>)

  /** `(x or "").strip()`. */
  function Text(o: Option<string>): (t: string)
    ensures o.None? ==> t == ""
    ensures |t| <= |GetOr(o, "")|
  {
    if o.Some? then Strip(o.value) else ""
  }

  lemma TextStripped(o: Option<string>)
    ensures Strip(Text(o)) == Text(o)
  {
    if o.Some? {
      StripIdempotent(o.value);
    }
  }

  predicate IsFaxContact(c: ContactRef) {
    Lower(Text(c.contactName)) == "fax"
  }

  /** A contact that supplies a fax number: named "fax" in any case, with a non-blank value. */
  predicate SuppliesFax(c: ContactRef) {
    IsFaxContact(c) && Text(c.contactValue) != ""
  }

  /** The fax found among the contacts: the value of the first contact that supplies one. */
  function ContactFax(cs: seq<ContactRef>): string {
    if cs == [] then ""
    else if SuppliesFax(cs[0]) then Text(cs[0].contactValue)
    else ContactFax(cs[1..])
  }

  /** The record id of a QuickBooks vendor: its own fax when not blank, else a contact's. */
  function RecordIdOf(v: VendorRet): string {
    var fax := Text(v.fax);
    if fax != "" then fax else ContactFax(v.contacts)
  }

  /** The vendor a `VendorRet` yields: only when its name or its record id is non-empty. */
  function VendorFromRet(v: VendorRet): (r: Option<Vendor>)
    ensures r.Some? <==> Text(v.name) != "" || RecordIdOf(v) != ""
    ensures r.Some? ==> r.value == Vendor(RecordIdOf(v), Text(v.name), QuickBooks)
  {
    var name := Text(v.name);
    var fax := RecordIdOf(v);
    if name != "" || fax != "" then Some(Vendor(fax, name, QuickBooks)) else None
  }

  /** The vendors of the records that yield one, in document order. */
  function Fetched(rets: seq<VendorRet>): seq<Vendor> {
    Somes(VendorFromRet, rets)
  }

  /** The outcome of `fetch_vendor_list` on a reply. */
  function Fetching(reply: Result<QbResponse, PyError>): Result<seq<Vendor>, PyError> {
    var root := Gate(reply);
    if root.Err? then Err(root.error) else Ok(Fetched(reply.value.vendorRets))
  }

  /** The record-id search of `fetch_vendor_list`: the own fax, else the contacts in order,
      stopping at the first that supplies a fax. */
  method SelectRecordId(v: VendorRet) returns (fax: string)
    ensures fax == RecordIdOf(v)
  {
    fax := Text(v.fax);
    if fax == "" {
      var cs := v.contacts;
      var j := 0;
      while j < |cs|
        invariant 0 <= j <= |cs|
        invariant fax == "" && ContactFax(cs[j..]) == ContactFax(cs)
      {
        var acr := cs[j];
        var cname := Lower(Text(acr.contactName));
        assert cs[j..][1..] == cs[j + 1..];
        if cname == "fax" {
          fax := Text(acr.contactValue);
          if fax != "" {
            break;
          }
        }
        j := j + 1;
      }
    }
  }

  /** `fetch_vendor_list()`: sends `VendorQuery` (returned as `sent`) and gets `reply`; on a
      reply that passes the gate, one QuickBooks vendor per `VendorRet` with a name or a
      record id, in document order. */
  method FetchVendorList(reply: Result<QbResponse, PyError>)
    returns (sent: string, result: Result<seq<Vendor>, PyError>)
    ensures sent == VendorQuery
    ensures Gate(reply).Err? ==> result == Err(Gate(reply).error)
    ensures Gate(reply).Ok? ==> result == Ok(Fetched(reply.value.vendorRets))
    ensures result == Fetching(reply)
  {
    sent := VendorQuery;
    var root := Gate(reply);
    if root.Err? {
      return sent, Err(root.error);
    }
    var rets := root.value.vendorRets;
    var vendors: seq<Vendor> := [];
    for i := 0 to |rets|
      invariant vendors == Fetched(rets[..i])
    {
      SomesStep(VendorFromRet, rets, i);
      var vend := rets[i];
      var name := Text(vend.name);
      var fax := SelectRecordId(vend);
      if name != "" || fax != "" {
        vendors := vendors + [Vendor(fax, name, QuickBooks)];
      }
    }
    assert rets[..|rets|] == rets;
    return sent, Ok(vendors);
  }

  /** A non-blank own fax is the record id, whatever the contacts say. */
  lemma OwnFaxFirst(v: VendorRet)
    requires Text(v.fax) != ""
    ensures RecordIdOf(v) == Text(v.fax)
  {
  }

  /** Otherwise the record id is the value of the first contact that supplies a fax ... */
  lemma {:induction false} FirstFaxContact(cs: seq<ContactRef>, i: nat)
    requires i < |cs| && SuppliesFax(cs[i])
    requires forall j :: 0 <= j < i ==> !SuppliesFax(cs[j])
    ensures ContactFax(cs) == Text(cs[i].contactValue)
  {
    SkipNonFax(cs, i);
    assert cs[i..][0] == cs[i];
    ContactFaxHead(cs[i..]);
  }

  /** Contacts that supply no fax are passed over. */
  lemma {:induction false} SkipNonFax(cs: seq<ContactRef>, i: nat)
    requires i <= |cs|
    requires forall j :: 0 <= j < i ==> !SuppliesFax(cs[j])
    ensures ContactFax(cs) == ContactFax(cs[i..])
    decreases i
  {
    if i == 0 {
      assert cs[0..] == cs;
    } else {
      SkipNonFax(cs, i - 1);
      var rest := cs[i - 1..];
      assert rest[0] == cs[i - 1] && rest[1..] == cs[i..];
      ContactFaxSkip(rest);
    }
  }

  lemma ContactFaxHead(cs: seq<ContactRef>)
    requires cs != [] && SuppliesFax(cs[0])
    ensures ContactFax(cs) == Text(cs[0].contactValue)
  {
  }

  lemma ContactFaxSkip(cs: seq<ContactRef>)
    requires cs != [] && !SuppliesFax(cs[0])
    ensures ContactFax(cs) == ContactFax(cs[1..])
  {
  }

  /** ... and "" when no contact supplies one. */
  lemma {:induction false} NoFaxContact(cs: seq<ContactRef>)
    requires forall j :: 0 <= j < |cs| ==> !SuppliesFax(cs[j])
    ensures ContactFax(cs) == ""
    decreases |cs|
  {
    if cs != [] {
      NoFaxContact(cs[1..]);
    }
  }

  /** A vendor tagged "quickbooks" with a name or a record id, neither with surrounding
      whitespace. */
  predicate FetchedShape(v: Vendor) {
    v.source == QuickBooks && (v.name != "" || v.recordId != "")
    && Strip(v.name) == v.name && Strip(v.recordId) == v.recordId
  }

  /** Every fetched vendor has that shape. */
  lemma FetchedWellFormed(rets: seq<VendorRet>)
    ensures forall v :: v in Fetched(rets) ==> FetchedShape(v)
  {
    forall v | v in Fetched(rets) ensures FetchedShape(v) {
      SomesFrom(VendorFromRet, rets, v);
      var i :| 0 <= i < |rets| && VendorFromRet(rets[i]) == Some(v);
      RetVendorWellFormed(rets[i]);
    }
  }

  /** The vendor of one record, when there is one, has the shape `FetchedWellFormed` states. */
  lemma RetVendorWellFormed(ret: VendorRet)
    requires VendorFromRet(ret).Some?
    ensures FetchedShape(VendorFromRet(ret).value)
  {
    RecordIdStripped(ret);
    TextStripped(ret.name);
  }

  lemma RecordIdStripped(ret: VendorRet)
    ensures Strip(RecordIdOf(ret)) == RecordIdOf(ret)
  {
    if Text(ret.fax) != "" {
      TextStripped(ret.fax);
    } else {
      ContactFaxStripped(ret.contacts);
    }
  }

  lemma {:induction false} ContactFaxStripped(cs: seq<ContactRef>)
    ensures Strip(ContactFax(cs)) == ContactFax(cs)
    decreases |cs|
  {
    if cs != [] {
      ContactFaxStripped(cs[1..]);
      TextStripped(cs[0].contactValue);
    }
  }

  /** Records are fetched independently and in order. */
  lemma FetchedAppend(a: seq<VendorRet>, b: seq<VendorRet>)
    ensures Fetched(a + b) == Fetched(a) + Fetched(b)
  {
    SomesAppend(VendorFromRet, a, b);
  }

  // ------------------------------------------------------------ add_vendor_list

  const BlockOpen := "    <VendorAddRq requestID=\""
  const BlockName := "\">\n      <VendorAdd>\n        <Name>"
  const BlockFax := "</Name>\n        " + "<IsActive>true</IsActive>\n        <Fax>"
  const BlockClose := "</Fax>\n      </VendorAdd>\n    </VendorAddRq>"
  const BatchHead :=
    "<?xml version=\"1.0\"?>\n<?qbxml version=\"13.0\"?>\n<QBXML>\n  <QBXMLMsgsRq onError=\"continueOnError\">\n"
  const BatchFoot := "  </QBXMLMsgsRq>\n</QBXML>"

  /** The `VendorAddRq` block of one vendor; the escaped record id is both the request id
      and the fax number. */
  function RequestBlock(v: Vendor): string {
    BlockText(XmlEscape(v.recordId), XmlEscape(v.name))
  }

  /** The block text around an escaped fax (also the request id) and an escaped name. */
  function BlockText(fax: string, name: string): string {
    BlockOpen + fax + BlockName + name + BlockFax + fax + BlockClose
  }

  /** The blocks of the vendors, in input order. */
  function RequestBlocks(vs: seq<Vendor>): (bs: seq<string>)
    ensures |bs| == |vs|
  {
    Map(RequestBlock, vs)
  }


  /** `"\n".join(lines)`. */
  function JoinLines(lines: seq<string>): string {
    if lines == [] then ""
    else if |lines| == 1 then lines[0]
    else lines[0] + "\n" + JoinLines(lines[1..])
  }

  /** The batch request sent for a non-empty vendor list. */
  function BatchRequest(vs: seq<Vendor>): string {
    BatchHead + JoinLines(RequestBlocks(vs)) + "\n" + BatchFoot
  }

  /** The (record id, name) pairs a batch request asks QuickBooks to add. */
  function Requested(vs: seq<Vendor>): seq<(string, string)> {
    if vs == [] then [] else [(vs[0].recordId, vs[0].name)] + Requested(vs[1..])
  }

  /** Builds the request text: one block per vendor, joined by newlines, in the envelope. */
  method BuildBatch(vendors: seq<Vendor>) returns (qbxml: string)
    ensures qbxml == BatchRequest(vendors)
  {
    var lines: seq<string> := [];
    for i := 0 to |vendors|
      invariant lines == RequestBlocks(vendors[..i])
    {
      var name := XmlEscape(vendors[i].name);
      var fax := XmlEscape(vendors[i].recordId);
      var block := BlockOpen + fax + BlockName + name + BlockFax + fax + BlockClose;
      assert block == RequestBlock(vendors[i]);
      RequestBlocksStep(vendors, i);
      lines := lines + [block];
    }
    assert vendors[..|vendors|] == vendors;
    qbxml := BatchHead + JoinLines(lines) + "\n" + BatchFoot;
  }

  lemma RequestBlocksStep(vs: seq<Vendor>, i: nat)
    requires i < |vs|
    ensures RequestBlocks(vs[..i + 1]) == RequestBlocks(vs[..i]) + [RequestBlock(vs[i])]
  {
    MapStep(RequestBlock, vs, i);
  }

  // Reading a batch request back.

  /** The text up to the first `c`, and the rest from there. */
  function ReadUntil(t: string, c: char): (string, string)
    decreases |t|
  {
    if t == [] || t[0] == c then ([], t)
    else
      var (a, r) := ReadUntil(t[1..], c);
      ([t[0]] + a, r)
  }

  lemma {:induction false} ReadUntilStops(a: string, r: string, c: char)
    requires c !in a && r != [] && r[0] == c
    ensures ReadUntil(a + r, c) == (a, r)
    decreases |a|
  {
    if a != [] {
      assert (a + r)[1..] == a[1..] + r;
      ReadUntilStops(a[1..], r, c);
      assert [a[0]] + a[1..] == a;
    } else {
      assert a + r == r;
    }
  }

  /** After `prefix`, the text up to `stop` and the rest from there. */
  function ReadAfter(t: string, prefix: string, stop: char): Option<(string, string)> {
    if StartsWith(t, prefix) then Some(ReadUntil(t[|prefix|..], stop)) else None
  }

  /** Reads one block: the request id, the name and the fax, escaped, then the rest. */
  function ParseBlock(t: string): Option<(string, string, string)> {
    var p1 := ReadAfter(t, BlockOpen, '"');
    if p1.None? then None
    else
      var p2 := ReadAfter(p1.value.1, BlockName, '<');
      if p2.None? then None
      else
        var p3 := ReadAfter(p2.value.1, BlockFax, '<');
        if p3.None? || !StartsWith(p3.value.1, BlockClose) || p3.value.0 != p1.value.0 then None
        else Some((p1.value.0, p2.value.0, p3.value.1[|BlockClose|..]))
  }

  /** Reads the blocks after the envelope's head, up to its foot; each field unescaped. */
  function ParseBlocks(t: string): Option<seq<(string, string)>>
    decreases |t|
  {
    var b := ParseBlock(t);
    if b.None? then None
    else
      var id, nm, rest := XmlUnescape(b.value.0), XmlUnescape(b.value.1), b.value.2;
      if id.None? || nm.None? || !StartsWith(rest, "\n") then None
      else if rest[1..] == BatchFoot then Some([(id.value, nm.value)])
      else if |rest| < |t| then
        var more := ParseBlocks(rest[1..]);
        if more.None? then None else Some([(id.value, nm.value)] + more.value)
      else None
  }

  function ParseRequest(t: string): Option<seq<(string, string)>> {
    if !StartsWith(t, BatchHead) then None else ParseBlocks(t[|BatchHead|..])
  }

  /** A field written after `prefix` and read up to `stop`, which the field does not hold. */
  lemma ReadField(prefix: string, field: string, rest: string, stop: char)
    requires stop !in field && rest != [] && rest[0] == stop
    ensures ReadAfter(prefix + (field + rest), prefix, stop) == Some((field, rest))
  {
    var t := prefix + (field + rest);
    assert t[|prefix|..] == field + rest;
    ReadUntilStops(field, rest, stop);
  }

  lemma BlockRoundTrip(v: Vendor, rest: string)
    ensures ParseBlock(RequestBlock(v) + rest)
         == Some((XmlEscape(v.recordId), XmlEscape(v.name), rest))
  {
    XmlEscapeWellFormed(v.recordId);
    XmlEscapeWellFormed(v.name);
    FieldsRoundTrip(XmlEscape(v.recordId), XmlEscape(v.name), rest);
  }

  /** The three fields of a block are read back when neither holds the character that ends it. */
  lemma FieldsRoundTrip(fax: string, name: string, rest: string)
    requires '"' !in fax && '<' !in fax && '<' !in name
    ensures ParseBlock(BlockText(fax, name) + rest) == Some((fax, name, rest))
  {
    var r3 := BlockClose + rest;
    var r2 := BlockFax + (fax + r3);
    var r1 := BlockName + (name + r2);
    var t := BlockOpen + (fax + r1);
    BlockTextSplit(fax, name, rest);
    FirstChar(BlockName, name + r2);
    FirstChar(BlockFax, fax + r3);
    FirstChar(BlockClose, rest);
    ReadField(BlockOpen, fax, r1, '"');
    ReadField(BlockName, name, r2, '<');
    ReadField(BlockFax, fax, r3, '<');
    ParseBlockSteps(t, fax, r1, name, r2, r3, rest);
  }

  lemma BlockTextSplit(fax: string, name: string, rest: string)
    ensures BlockText(fax, name) + rest
         == BlockOpen + (fax + (BlockName + (name + (BlockFax + (fax + (BlockClose + rest))))))
  {
    RightNested(BlockOpen, fax, BlockName, name, BlockFax, fax, BlockClose, rest);
  }


  lemma FirstChar(a: string, b: string)
    requires a != []
    ensures (a + b)[0] == a[0]
  {
  }

  /** `ParseBlock` from the results of its three reads. */
  lemma ParseBlockSteps(t: string, fax: string, r1: string, name: string, r2: string, r3: string, rest: string)
    requires ReadAfter(t, BlockOpen, '"') == Some((fax, r1))
    requires ReadAfter(r1, BlockName, '<') == Some((name, r2))
    requires ReadAfter(r2, BlockFax, '<') == Some((fax, r3))
    requires r3 == BlockClose + rest
    ensures ParseBlock(t) == Some((fax, name, rest))
  {
    assert StartsWith(r3, BlockClose) && r3[|BlockClose|..] == rest;
  }

  lemma JoinLinesCons(bs: seq<string>, suffix: string)
    requires |bs| > 1
    ensures JoinLines(bs) + suffix == bs[0] + ("\n" + (JoinLines(bs[1..]) + suffix))
  {
  }

  lemma RequestBlocksTail(vs: seq<Vendor>)
    requires vs != []
    ensures RequestBlocks(vs)[0] == RequestBlock(vs[0])
    ensures RequestBlocks(vs)[1..] == RequestBlocks(vs[1..])
  {
    MapTail(RequestBlock, vs);
  }

  /** The blocks, each followed by its newline, up to the foot, read back in order. */
  lemma {:induction false} BlocksRoundTrip(vs: seq<Vendor>)
    requires vs != []
    ensures ParseBlocks(JoinLines(RequestBlocks(vs)) + ("\n" + BatchFoot)) == Some(Requested(vs))
    decreases |vs|
  {
    var v, sfx := vs[0], "\n" + BatchFoot;
    var bs := RequestBlocks(vs);
    RequestBlocksTail(vs);
    if |vs| == 1 {
      assert JoinLines(bs) + sfx == RequestBlock(v) + sfx;
      OneBlock(v, sfx);
      assert Requested(vs) == [(v.recordId, v.name)] by {
        assert vs[1..] == [];
      }
    } else {
      var tail := JoinLines(RequestBlocks(vs[1..])) + sfx;
      JoinLinesCons(bs, sfx);
      assert JoinLines(bs) + sfx == RequestBlock(v) + ("\n" + tail);
      BlocksRoundTrip(vs[1..]);
      RequestBlocksTail(vs[1..]);
      BlockTextStartsWith(XmlEscape(vs[1].recordId), XmlEscape(vs[1].name));
      JoinLinesStartsWith(RequestBlocks(vs[1..]), sfx);
      BlockIsNotFoot(tail);
      MoreBlocks(v, tail);
    }
  }

  lemma BlockTextStartsWith(fax: string, name: string)
    ensures StartsWith(BlockText(fax, name), BlockOpen)
  {
    SevenNested(BlockOpen, fax, BlockName, name, BlockFax, fax, BlockClose);
    AfterPrefix(BlockOpen, fax + (BlockName + (name + (BlockFax + (fax + BlockClose)))));
  }

  /** Text that opens a block is not the foot. */
  lemma BlockIsNotFoot(t: string)
    requires |BlockOpen| <= |t| && t[..|BlockOpen|] == BlockOpen
    ensures t != BatchFoot
  {
    assert t[2] == BlockOpen[2] == ' ';
    assert BatchFoot[2] == '<';
  }

  lemma OneBlock(v: Vendor, rest: string)
    requires rest == "\n" + BatchFoot
    ensures ParseBlocks(RequestBlock(v) + rest) == Some([(v.recordId, v.name)])
  {
    BlockRoundTrip(v, rest);
    XmlEscapeWellFormed(v.recordId);
    XmlEscapeWellFormed(v.name);
    assert StartsWith(rest, "\n") && rest[1..] == BatchFoot;
  }

  lemma MoreBlocks(v: Vendor, tail: string)
    requires tail != BatchFoot
    ensures ParseBlocks(RequestBlock(v) + ("\n" + tail)) ==
      (var more := ParseBlocks(tail); if more.None? then None else Some([(v.recordId, v.name)] + more.value))
  {
    var rest := "\n" + tail;
    BlockRoundTrip(v, rest);
    XmlEscapeWellFormed(v.recordId);
    XmlEscapeWellFormed(v.name);
    assert StartsWith(rest, "\n") && rest[1..] == tail;
    assert |rest| < |RequestBlock(v) + rest|;
  }

  /** A joined, non-empty list of blocks starts with the opening of its first block. */
  lemma JoinLinesStartsWith(bs: seq<string>, suffix: string)
    requires bs != [] && StartsWith(bs[0], BlockOpen)
    ensures (JoinLines(bs) + suffix)[..|BlockOpen|] == BlockOpen
  {
    var j := JoinLines(bs);
    if |bs| > 1 {
      assert j == bs[0] + ("\n" + JoinLines(bs[1..]));
    }
    assert j[..|BlockOpen|] == BlockOpen;
  }

  /** The batch request carries one block per vendor, in input order, from which the record
      id (as request id and fax) and the name can be read back exactly. */
  lemma BatchRoundTrip(vs: seq<Vendor>)
    requires vs != []
    ensures ParseRequest(BatchRequest(vs)) == Some(Requested(vs))
  {
    var blocks := JoinLines(RequestBlocks(vs));
    FourNested(BatchHead, blocks, "\n", BatchFoot);
    AfterPrefix(BatchHead, blocks + ("\n" + BatchFoot));
    BlocksRoundTrip(vs);
  }


  // The tally of the replies.

  /** What `add_vendor_list` counts: vendors added (code 0) and vendors already present
      (code 3100); other codes are reported only. */
  datatype Tally = Tally(added: nat, skippedExisting: nat)

  /** `vend_resp.get("statusCode", "0")`. */
  function CodeText(rs: StatusElement): string {
    GetOr(rs.statusCode, "0")
  }

  const IntErrorPrefix := "invalid literal for int() " + "with base 10: "

  /** CPython formats the rejected text with `%.200R`: its repr, cut at 200 characters. */
  const IntErrorReprLimit := 200

  /** The error `int()` raises on text it rejects. */
  function IntError(s: string): PyError {
    var r := Repr(s);
    ValueError(IntErrorPrefix + (if |r| <= IntErrorReprLimit then r else r[..IntErrorReprLimit]))
  }

  /** The message names the rejected text: after the fixed prefix comes its repr, which
      reads back as the text when it fits the limit and is cut to the limit otherwise. */
  lemma IntErrorNamesText(s: string)
    ensures var m := IntError(s).message;
      && StartsWith(m, IntErrorPrefix)
      && |m| <= |IntErrorPrefix| + IntErrorReprLimit
      && (|Repr(s)| <= IntErrorReprLimit ==> ParseRepr(m[|IntErrorPrefix|..]) == Some((s, "")))
      && (|Repr(s)| > IntErrorReprLimit ==> m[|IntErrorPrefix|..] == Repr(s)[..IntErrorReprLimit])
  {
    var r := Repr(s);
    var shown := if |r| <= IntErrorReprLimit then r else r[..IntErrorReprLimit];
    AfterPrefix(IntErrorPrefix, shown);
    ReprRoundTrip(s, "");
    assert r + "" == r;
  }

  /** What `int` makes of a reply's code text, kept with the text. */
  type Reading = (string, Option<int>)

  function Readings(rs: seq<StatusElement>): (ps: seq<Reading>)
    ensures |ps| == |rs|
    ensures forall i :: 0 <= i < |rs| ==> ps[i] == (CodeText(rs[i]), ParseInt(CodeText(rs[i])))
  {
    seq(|rs|, i requires 0 <= i < |rs| => (CodeText(rs[i]), ParseInt(CodeText(rs[i]))))
  }

  /** The tally of the replies in order. */
  function TallyOf(rs: seq<StatusElement>): Result<Tally, PyError> {
    TallyReadings(Readings(rs))
  }

  /** Readings counted in order; the first that `int` rejects raises. */
  function TallyReadings(ps: seq<Reading>): Result<Tally, PyError> {
    if ps == [] then Ok(Tally(0, 0))
    else
      var prior := TallyReadings(ps[..|ps| - 1]);
      if prior.Err? then prior else TallyNext(prior.value, ps[|ps| - 1])
  }

  /** One reading counted into the tally so far. */
  function TallyNext(t: Tally, p: Reading): Result<Tally, PyError> {
    match p.1
    case None => Err(IntError(p.0))
    case Some(code) =>
      if code == 0 then Ok(t.(added := t.added + 1))
      else if code == 3100 then Ok(t.(skippedExisting := t.skippedExisting + 1))
      else Ok(t)
  }

  /** The number of readings equal to `n`. */
  function CountCode(ps: seq<Reading>, n: int): nat {
    if ps == [] then 0
    else CountCode(ps[..|ps| - 1], n) + (if ps[|ps| - 1].1 == Some(n) then 1 else 0)
  }

  predicate AllCodesNumeric(rs: seq<StatusElement>) {
    forall i :: 0 <= i < |rs| ==> ParseInt(CodeText(rs[i])).Some?
  }

  /** The response loop of `add_vendor_list`. */
  method TallyReplies(rs: seq<StatusElement>) returns (result: Result<Tally, PyError>)
    ensures result == TallyOf(rs)
  {
    ghost var ps := Readings(rs);
    var added: nat, skippedExisting: nat := 0, 0;
    for i := 0 to |rs|
      invariant TallyReadings(ps[..i]) == Ok(Tally(added, skippedExisting))
    {
      var text := CodeText(rs[i]);
      var statusCode := ParseInt(text);
      assert ps[i] == (text, statusCode);
      if statusCode.None? {
        TallyStep(ps, i);
        TallyErrorSticks(ps, i + 1);
        return Err(IntError(text));
      }
      TallyAdvance(ps, i, added, skippedExisting);
      if statusCode.value == 0 {
        added := added + 1;
      } else if statusCode.value == 3100 {
        skippedExisting := skippedExisting + 1;
      }
    }
    assert ps[..|rs|] == ps;
    return Ok(Tally(added, skippedExisting));
  }

  lemma TallyStep(ps: seq<Reading>, i: nat)
    requires i < |ps| && TallyReadings(ps[..i]).Ok?
    ensures TallyReadings(ps[..i + 1]) == TallyNext(TallyReadings(ps[..i]).value, ps[i])
  {
    assert ps[..i + 1][..i] == ps[..i];
  }

  lemma TallyAdvance(ps: seq<Reading>, i: nat, added: nat, skippedExisting: nat)
    requires i < |ps| && ps[i].1.Some?
    requires TallyReadings(ps[..i]) == Ok(Tally(added, skippedExisting))
    ensures TallyReadings(ps[..i + 1]) == Ok(Tally(
      added + (if ps[i].1.value == 0 then 1 else 0),
      skippedExisting + (if ps[i].1.value == 3100 then 1 else 0)))
  {
    TallyStep(ps, i);
  }

  /** Once a reading is rejected, later ones do not change the outcome. */
  lemma {:induction false} TallyErrorSticks(ps: seq<Reading>, n: nat)
    requires n <= |ps| && TallyReadings(ps[..n]).Err?
    ensures TallyReadings(ps) == TallyReadings(ps[..n])
    decreases |ps| - n
  {
    if n < |ps| {
      assert ps[..n + 1][..n] == ps[..n];
      TallyErrorSticks(ps, n + 1);
    } else {
      assert ps[..n] == ps;
    }
  }

  /** The tally succeeds exactly when `int` accepts every reading. */
  lemma {:induction false} TallySucceeds(ps: seq<Reading>)
    ensures TallyReadings(ps).Ok? <==> forall i :: 0 <= i < |ps| ==> ps[i].1.Some?
    decreases |ps|
  {
    if ps != [] {
      var init := ps[..|ps| - 1];
      TallySucceeds(init);
      assert forall i :: 0 <= i < |init| ==> init[i] == ps[i];
    }
  }

  /** The first rejected reading is the one the error names. */
  lemma {:induction false} TallyFirstError(ps: seq<Reading>, k: nat)
    requires k < |ps| && ps[k].1.None?
    requires forall j :: 0 <= j < k ==> ps[j].1.Some?
    ensures TallyReadings(ps) == Err(IntError(ps[k].0))
  {
    var pre := ps[..k];
    assert forall j :: 0 <= j < |pre| ==> pre[j].1.Some?;
    TallySucceeds(pre);
    assert ps[..k + 1][..k] == pre;
    TallyErrorSticks(ps, k + 1);
  }

  /** A tally that succeeds counts the readings 0 and the readings 3100, and never more
      than there are readings. */
  lemma {:induction false} TallyCounts(ps: seq<Reading>)
    requires TallyReadings(ps).Ok?
    ensures TallyReadings(ps).value.added == CountCode(ps, 0)
    ensures TallyReadings(ps).value.skippedExisting == CountCode(ps, 3100)
    ensures TallyReadings(ps).value.added + TallyReadings(ps).value.skippedExisting <= |ps|
    decreases |ps|
  {
    if ps != [] {
      TallyCounts(ps[..|ps| - 1]);
    }
  }

  /** For the replies themselves: the tally succeeds exactly when every code is an integer,
      and then counts the codes 0 and 3100. */
  lemma TallyOutcome(rs: seq<StatusElement>)
    ensures TallyOf(rs).Ok? <==> AllCodesNumeric(rs)
    ensures TallyOf(rs).Ok? ==>
      && TallyOf(rs).value.added == CountCode(Readings(rs), 0)
      && TallyOf(rs).value.skippedExisting == CountCode(Readings(rs), 3100)
  {
    var ps := Readings(rs);
    TallySucceeds(ps);
    if TallyOf(rs).Ok? {
      TallyCounts(ps);
    }
  }

  /** `add_vendor_list(vendors)`: nothing is sent for an empty list; otherwise the batch
      request is sent and, on a reply that passes the gate, the replies are tallied. */
  method AddVendorList(vendors: seq<Vendor>, reply: Result<QbResponse, PyError>)
    returns (sent: Option<string>, result: Result<Option<Tally>, PyError>)
    ensures vendors == [] ==> sent == None && result == Ok(None)
    ensures vendors != [] ==> sent == Some(BatchRequest(vendors))
    ensures vendors != [] && Gate(reply).Err? ==> result == Err(Gate(reply).error)
    ensures vendors != [] && Gate(reply).Ok? ==>
      match TallyOf(Gate(reply).value.addResponses)
      case Err(e) => result == Err(e)
      case Ok(t) => result == Ok(Some(t))
  {
    if vendors == [] {
      return None, Ok(None);
    }
    var qbxml := BuildBatch(vendors);
    sent := Some(qbxml);
    var root := Gate(reply);
    if root.Err? {
      return sent, Err(root.error);
    }
    var tally := TallyReplies(root.value.addResponses);
    if tally.Err? {
      return sent, Err(tally.error);
    }
    return sent, Ok(Some(tally.value));
  }
}
