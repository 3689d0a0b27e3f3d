/** The printed invoice, stated with absolute coordinates: the draw calls the
    document receives, section by section, and the file name it is saved
    under. The imperative generator in PdfGenerator is proved to produce
    exactly this. */
module InvoiceLayout {
  import opened JsValues
  import opened InvoiceItems

  /** Body text starts here (x, in the document's millimetres). */
  const LeftMargin: real := 20.0
  /** Width of the document's default page (A4 portrait). */
  const PageWidth: real := 210.0
  /** Right end of the separator rule. */
  const RuleEnd: real := 190.0
  /** x of the right-aligned total line. */
  const TotalX: real := 180.0

  datatype Align = AlignLeft | AlignCenter | AlignRight

  /** One call made on the document. `Text` records its first argument as it
      was passed. `Table` is one autoTable call with its start, header row,
      body rows and left margin. */
  datatype DrawOp =
    | Text(arg: JsValue, x: real, y: real, align: Align)
    | Line(x1: real, y1: real, x2: real, y2: real)
    | Table(startY: real, head: seq<string>, body: seq<seq<JsValue>>, marginLeft: real)

  /** The record keys of one party (seller or buyer) block. */
  datatype PartyKeys = PartyKeys(
    name: string, street: string, city: string, state: string,
    zip: string, country: string, phone: string, email: string)

  const SellerKeys: PartyKeys := PartyKeys(
    "sellerCompanyName", "sellerStreet", "sellerCity", "sellerState",
    "sellerZipCode", "sellerCountry", "sellerPhone", "sellerEmail")

  const BuyerKeys: PartyKeys := PartyKeys(
    "buyerName", "buyerStreet", "buyerCity", "buyerState",
    "buyerZipCode", "buyerCountry", "buyerPhone", "buyerEmail")

  /** `data[key] || "N/A"` */
  function OrNA(data: Record, key: string): JsValue {
    Or(Get(data, key), Str("N/A"))
  }

  /** A template line `${caption}${data[key] || "N/A"}`. */
  function LabelledLine(caption: string, data: Record, key: string, host: Host): JsValue {
    Str(caption + ToString(OrNA(data, key), host))
  }

  /** `data[key] || ""` as it prints inside a template literal. */
  function PartOrEmpty(data: Record, key: string, host: Host): string {
    ToString(Or(Get(data, key), Str("")), host)
  }

  /** The `"<city>, <state> <zip>"` line. */
  function CityLine(data: Record, keys: PartyKeys, host: Host): JsValue {
    Str(PartOrEmpty(data, keys.city, host) + ", " + PartOrEmpty(data, keys.state, host)
        + " " + PartOrEmpty(data, keys.zip, host))
  }

  /** Title and the three metadata lines. */
  function TitleAndMetadata(data: Record, host: Host): seq<DrawOp> {
    [ Text(Str("INVOICE"), PageWidth / 2.0, 20.0, AlignCenter),
      Text(LabelledLine("Invoice Number: ", data, "invoiceNumber", host), LeftMargin, 35.0, AlignLeft),
      Text(LabelledLine("Issue Date: ", data, "issueDate", host), LeftMargin, 41.0, AlignLeft),
      Text(LabelledLine("Due Date: ", data, "dueDate", host), LeftMargin, 47.0, AlignLeft) ]
  }

  /** The horizontal separator under the metadata. */
  const Rule: DrawOp := Line(LeftMargin, 57.0, RuleEnd, 57.0)

  /** A seven-line party block whose heading sits at `top`, one line every 6 units. */
  function PartyBlock(heading: string, keys: PartyKeys, top: real, data: Record, host: Host): seq<DrawOp> {
    [ Text(Str(heading), LeftMargin, top, AlignLeft),
      Text(OrNA(data, keys.name), LeftMargin, top + 6.0, AlignLeft),
      Text(OrNA(data, keys.street), LeftMargin, top + 12.0, AlignLeft),
      Text(CityLine(data, keys, host), LeftMargin, top + 18.0, AlignLeft),
      Text(OrNA(data, keys.country), LeftMargin, top + 24.0, AlignLeft),
      Text(LabelledLine("Phone: ", data, keys.phone, host), LeftMargin, top + 30.0, AlignLeft),
      Text(LabelledLine("Email: ", data, keys.email, host), LeftMargin, top + 36.0, AlignLeft) ]
  }

  const SellerTop: real := 67.0
  const BuyerTop: real := 113.0
  const TableTop: real := 159.0

  /** Everything drawn before the item list is read: title, metadata, rule,
      seller and buyer. */
  function Letterhead(data: Record, host: Host): seq<DrawOp> {
    TitleAndMetadata(data, host) + [Rule]
    + PartyBlock("From:", SellerKeys, SellerTop, data, host)
    + PartyBlock("To:", BuyerKeys, BuyerTop, data, host)
  }

  /** The right-aligned total, 10 units under the table's end. */
  function TotalLine(items: seq<JsValue>, host: Host, finalY: real): DrawOp
    requires Readable(items)
  {
    Text(Str("Total Amount: $" + host.fixed2(Total(items, host))), TotalX, finalY + 10.0, AlignRight)
  }

  /** Notes, then terms, each only when its field is truthy: a bold label 10
      units below the previous line and the field's value 6 units further.
      `top` is the y of the total line. */
  function OptionalSections(data: Record, top: real): seq<DrawOp> {
    var notes := Get(data, "notes");
    var terms := Get(data, "termsAndConditions");
    var notesOps :=
      if Truthy(notes)
      then [Text(Str("Notes:"), LeftMargin, top + 10.0, AlignLeft),
            Text(notes, LeftMargin, top + 16.0, AlignLeft)]
      else [];
    var termsTop := if Truthy(notes) then top + 16.0 else top;
    var termsOps :=
      if Truthy(terms)
      then [Text(Str("Terms and Conditions:"), LeftMargin, termsTop + 10.0, AlignLeft),
            Text(terms, LeftMargin, termsTop + 16.0, AlignLeft)]
      else [];
    notesOps + termsOps
  }

  /** The complete list of draw calls when the item list can be read. */
  function Layout(data: Record, items: seq<JsValue>, host: Host, finalY: real): seq<DrawOp>
    requires Readable(items)
  {
    Letterhead(data, host)
    + [Table(TableTop, TableHead, TableRows(items, host), LeftMargin), TotalLine(items, host, finalY)]
    + OptionalSections(data, finalY + 10.0)
  }

  /** `Invoice-${invoiceNumber || "draft"}.pdf` */
  function FileName(data: Record, host: Host): (name: string)
    ensures !Truthy(Get(data, "invoiceNumber")) ==> name == "Invoice-draft.pdf"
    ensures Get(data, "invoiceNumber").Str? && Truthy(Get(data, "invoiceNumber"))
            ==> name == "Invoice-" + Get(data, "invoiceNumber").s + ".pdf"
  {
    "Invoice-" + ToString(Or(Get(data, "invoiceNumber"), Str("draft")), host) + ".pdf"
  }

  /** How one generation ends: the file is saved, or a TypeError is thrown
      while the item list is read. */
  datatype Outcome = Saved(fileName: string) | Threw(error: ItemsError)

  /** Draw calls and outcome of one generation. */
  datatype Rendering = Rendering(ops: seq<DrawOp>, outcome: Outcome)

  /** What one generation does, for every record: when the item list throws,
      the document holds the letterhead only and is never saved. */
  function Render(data: Record, host: Host, finalY: real): (r: Rendering)
    ensures r.outcome.Threw? <==> LineItems(data).Err?
    ensures r.outcome.Threw? ==> r.ops == Letterhead(data, host)
    ensures r.outcome.Saved? ==> r.outcome.fileName == FileName(data, host)
                                 && r.ops == Layout(data, LineItems(data).value, host, finalY)
  {
    match LineItems(data)
    case Err(e) => Rendering(Letterhead(data, host), Threw(e))
    case Ok(items) => Rendering(Layout(data, items, host, finalY), Saved(FileName(data, host)))
  }

  // ---------------------------------------------------------------------
  // Properties of the layout

  /** Whether or not the item list throws, the letterhead is drawn first. */
  lemma RenderStartsWithLetterhead(data: Record, host: Host, finalY: real)
    ensures |Letterhead(data, host)| == 19
    ensures |Render(data, host, finalY).ops| >= 19
    ensures Render(data, host, finalY).ops[..19] == Letterhead(data, host)
  {
    var lh := Letterhead(data, host);
    var r := Render(data, host, finalY);
    if LineItems(data).Ok? {
      var rest := [Table(TableTop, TableHead, TableRows(LineItems(data).value, host), LeftMargin),
                   TotalLine(LineItems(data).value, host, finalY)]
                  + OptionalSections(data, finalY + 10.0);
      assert r.ops == lh + rest;
      assert (lh + rest)[..|lh|] == lh;
    }
  }

  /** The letterhead sits at fixed positions whatever the record holds. */
  lemma LetterheadPositions(data: Record, host: Host)
    ensures var ops := Letterhead(data, host);
      && |ops| == 19
      && ops[0] == Text(Str("INVOICE"), 105.0, 20.0, AlignCenter)
      && ops[1].Text? && ops[1].x == 20.0 && ops[1].y == 35.0
      && ops[2].Text? && ops[2].x == 20.0 && ops[2].y == 41.0
      && ops[3].Text? && ops[3].x == 20.0 && ops[3].y == 47.0
      && ops[4] == Line(20.0, 57.0, 190.0, 57.0)
      && ops[5] == Text(Str("From:"), 20.0, 67.0, AlignLeft)
      && ops[12] == Text(Str("To:"), 20.0, 113.0, AlignLeft)
      && (forall i | 1 <= i < 19 && i != 4 :: ops[i].Text? && ops[i].x == 20.0 && ops[i].align == AlignLeft)
  {
  }

  /** Invoice number, issue date and due date print as "N/A" when falsy and
      as their own text otherwise. */
  lemma MetadataFallback(data: Record, host: Host, key: string, caption: string)
    ensures !Truthy(Get(data, key)) ==> LabelledLine(caption, data, key, host) == Str(caption + "N/A")
    ensures Get(data, key).Str? && Truthy(Get(data, key))
            ==> LabelledLine(caption, data, key, host) == Str(caption + Get(data, key).s)
  {
  }

  /** Name, street and country lines pass the field itself when truthy and
      "N/A" otherwise; they are never empty. */
  lemma PartyFieldFallback(data: Record, key: string)
    ensures Truthy(OrNA(data, key))
    ensures !Truthy(Get(data, key)) ==> OrNA(data, key) == Str("N/A")
    ensures Truthy(Get(data, key)) ==> OrNA(data, key) == Get(data, key)
  {
  }

  /** The city line falls back to "" per part, never to "N/A", so it keeps
      the shape "<city>, <state> <zip>" even when all three are missing. */
  lemma CityLineShape(data: Record, keys: PartyKeys, host: Host)
    ensures !Truthy(Get(data, keys.city)) && !Truthy(Get(data, keys.state)) && !Truthy(Get(data, keys.zip))
            ==> CityLine(data, keys, host) == Str(",  ")
    ensures Get(data, keys.city).Str? && Get(data, keys.state).Str? && Get(data, keys.zip).Str?
            ==> CityLine(data, keys, host)
                == Str(Get(data, keys.city).s + ", " + Get(data, keys.state).s + " " + Get(data, keys.zip).s)
  {
  }

  /** The table starts at 159 with the fixed header and one row per item; the
      total line sits right-aligned at x=180, 10 units below the table's end,
      and shows the sum of price times quantity. */
  lemma TableAndTotal(data: Record, items: seq<JsValue>, host: Host, finalY: real)
    requires Readable(items)
    ensures var ops := Layout(data, items, host, finalY);
      && |ops| >= 21
      && ops[..19] == Letterhead(data, host)
      && ops[19] == Table(159.0, ["Item", "Quantity", "Price", "Total"], TableRows(items, host), 20.0)
      && |ops[19].body| == |items|
      && ops[20] == Text(Str("Total Amount: $" + host.fixed2(SumAmounts(items, host))), 180.0, finalY + 10.0, AlignRight)
  {
    TotalIsSum(items, host);
    var ops := Layout(data, items, host, finalY);
    assert ops[..19] == Letterhead(data, host);
  }

  /** Notes appear exactly when `notes` is truthy and terms exactly when
      `termsAndConditions` is; notes come first; each section is a label 10
      units down and its text 6 units further. */
  lemma OptionalSectionsPlacement(data: Record, items: seq<JsValue>, host: Host, finalY: real)
    requires Readable(items)
    ensures var ops := Layout(data, items, host, finalY);
      var notes := Get(data, "notes");
      var terms := Get(data, "termsAndConditions");
      var t := if Truthy(notes) then 23 else 21;
      && |ops| == t + (if Truthy(terms) then 2 else 0)
      && (Truthy(notes) ==>
            ops[21] == Text(Str("Notes:"), 20.0, finalY + 20.0, AlignLeft)
            && ops[22] == Text(notes, 20.0, finalY + 26.0, AlignLeft))
      && (Truthy(terms) ==>
            ops[t] == Text(Str("Terms and Conditions:"), 20.0, finalY + (if Truthy(notes) then 36.0 else 20.0), AlignLeft)
            && ops[t + 1] == Text(terms, 20.0, finalY + (if Truthy(notes) then 42.0 else 26.0), AlignLeft))
  {
  }

  /** Where a call draws, with what it draws erased. */
  datatype Placement =
    | TextAt(x: real, y: real, align: Align)
    | LineAt(x1: real, y1: real, x2: real, y2: real)
    | TableAt(startY: real, marginLeft: real)

  function PlacementOf(op: DrawOp): Placement {
    match op
    case Text(_, x, y, align) => TextAt(x, y, align)
    case Line(x1, y1, x2, y2) => LineAt(x1, y1, x2, y2)
    case Table(startY, _, _, marginLeft) => TableAt(startY, marginLeft)
  }

  function Placements(ops: seq<DrawOp>): (ps: seq<Placement>) {
    seq(|ops|, i requires 0 <= i < |ops| => PlacementOf(ops[i]))
  }

  lemma PlacementsAppend(a: seq<DrawOp>, b: seq<DrawOp>)
    ensures Placements(a + b) == Placements(a) + Placements(b)
  {
    var l, r := Placements(a + b), Placements(a) + Placements(b);
    forall i | 0 <= i < |l| ensures l[i] == r[i] {
      if i < |a| { assert (a + b)[i] == a[i]; } else { assert (a + b)[i] == b[i - |a|]; }
    }
  }

  /** Where the seven lines of a party block go, given its heading's y. */
  function PartyGeometry(top: real): seq<Placement> {
    [ TextAt(20.0, top, AlignLeft), TextAt(20.0, top + 6.0, AlignLeft),
      TextAt(20.0, top + 12.0, AlignLeft), TextAt(20.0, top + 18.0, AlignLeft),
      TextAt(20.0, top + 24.0, AlignLeft), TextAt(20.0, top + 30.0, AlignLeft),
      TextAt(20.0, top + 36.0, AlignLeft) ]
  }

  /** Reference geometry of a whole document, written without any record:
      title, metadata, rule, the two party blocks, table, total, and the
      optional notes and terms below the table's end `finalY`. */
  function Geometry(finalY: real, hasNotes: bool, hasTerms: bool): seq<Placement> {
    [ TextAt(105.0, 20.0, AlignCenter), TextAt(20.0, 35.0, AlignLeft),
      TextAt(20.0, 41.0, AlignLeft), TextAt(20.0, 47.0, AlignLeft),
      LineAt(20.0, 57.0, 190.0, 57.0) ]
    + PartyGeometry(67.0) + PartyGeometry(113.0)
    + [ TableAt(159.0, 20.0), TextAt(180.0, finalY + 10.0, AlignRight) ]
    + OptionalGeometry(finalY + 10.0, hasNotes, hasTerms)
  }

  /** Where the optional notes and terms go below a line at `top`. */
  function OptionalGeometry(top: real, hasNotes: bool, hasTerms: bool): seq<Placement> {
    var termsTop := if hasNotes then top + 16.0 else top;
    (if hasNotes then [TextAt(20.0, top + 10.0, AlignLeft), TextAt(20.0, top + 16.0, AlignLeft)] else [])
    + (if hasTerms then [TextAt(20.0, termsTop + 10.0, AlignLeft), TextAt(20.0, termsTop + 16.0, AlignLeft)] else [])
  }

  lemma OptionalSectionsGeometry(data: Record, top: real)
    ensures Placements(OptionalSections(data, top))
            == OptionalGeometry(top, Truthy(Get(data, "notes")), Truthy(Get(data, "termsAndConditions")))
  {
  }

  lemma PartyBlockGeometry(heading: string, keys: PartyKeys, top: real, data: Record, host: Host)
    ensures Placements(PartyBlock(heading, keys, top, data, host)) == PartyGeometry(top)
  {
  }

  /** Every document is laid out on the reference geometry: the positions
      depend only on where the table ends and on whether notes and terms are
      present. */
  lemma LayoutGeometry(data: Record, items: seq<JsValue>, host: Host, finalY: real)
    requires Readable(items)
    ensures Placements(Layout(data, items, host, finalY))
            == Geometry(finalY, Truthy(Get(data, "notes")), Truthy(Get(data, "termsAndConditions")))
  {
    var title := TitleAndMetadata(data, host);
    var seller := PartyBlock("From:", SellerKeys, SellerTop, data, host);
    var buyer := PartyBlock("To:", BuyerKeys, BuyerTop, data, host);
    var mid := [Table(TableTop, TableHead, TableRows(items, host), LeftMargin), TotalLine(items, host, finalY)];
    var tail := OptionalSections(data, finalY + 10.0);
    PlacementsAppend(title, [Rule]);
    PlacementsAppend(title + [Rule], seller);
    PlacementsAppend(title + [Rule] + seller, buyer);
    PlacementsAppend(Letterhead(data, host), mid);
    PlacementsAppend(Letterhead(data, host) + mid, tail);
    PartyBlockGeometry("From:", SellerKeys, SellerTop, data, host);
    PartyBlockGeometry("To:", BuyerKeys, BuyerTop, data, host);
    OptionalSectionsGeometry(data, finalY + 10.0);
  }

  /** Hence the texts, the items and the number formatting never move
      anything on the page. */
  lemma GeometryIndependentOfContent(
    d1: Record, items1: seq<JsValue>, host1: Host,
    d2: Record, items2: seq<JsValue>, host2: Host, finalY: real)
    requires Readable(items1) && Readable(items2)
    requires Truthy(Get(d1, "notes")) == Truthy(Get(d2, "notes"))
    requires Truthy(Get(d1, "termsAndConditions")) == Truthy(Get(d2, "termsAndConditions"))
    ensures Placements(Layout(d1, items1, host1, finalY)) == Placements(Layout(d2, items2, host2, finalY))
  {
    LayoutGeometry(d1, items1, host1, finalY);
    LayoutGeometry(d2, items2, host2, finalY);
  }

  /** Every left-aligned text sits on the left margin; the only other texts
      are the centred title and the right-aligned total. */
  lemma AlignmentDiscipline(data: Record, items: seq<JsValue>, host: Host, finalY: real)
    requires Readable(items)
    ensures var ops := Layout(data, items, host, finalY);
      forall i | 0 <= i < |ops| && ops[i].Text? ::
        (ops[i].align == AlignLeft ==> ops[i].x == LeftMargin)
        && (ops[i].align == AlignCenter <==> i == 0)
        && (ops[i].align == AlignRight <==> i == 20)
  {
    LetterheadPositions(data, host);
    OptionalSectionsPlacement(data, items, host, finalY);
  }

  /** A missing invoice number prints as "N/A" in the document but names the
      file "Invoice-draft.pdf". */
  lemma MissingNumberDraftFile(data: Record, host: Host, finalY: real)
    requires !Truthy(Get(data, "invoiceNumber"))
    ensures Render(data, host, finalY).ops[1].arg == Str("Invoice Number: N/A")
    ensures Render(data, host, finalY).outcome.Saved? ==>
              Render(data, host, finalY).outcome.fileName == "Invoice-draft.pdf"
  {
    MetadataFallback(data, host, "invoiceNumber", "Invoice Number: ");
    RenderStartsWithLetterhead(data, host, finalY);
    var r := Render(data, host, finalY);
    assert r.ops[1] == Letterhead(data, host)[1] == TitleAndMetadata(data, host)[1];
  }
}
