/** `generatePdf`: the imperative walk over the invoice record that keeps a
    running vertical cursor and issues draw calls on a fresh document. */
module PdfGenerator {
  import opened JsValues
  import opened InvoiceItems
  import opened InvoiceLayout

  /** The document being drawn. It records the calls made on it in order; the
      table plugin reports where the table it laid out ends. Fonts, sizes and
      colours are not recorded. */
  class PdfDoc {
    const pageWidth: real
    var ops: seq<DrawOp>
    var lastTableFinalY: real
    var savedAs: Option<string>

    /** A new, empty page of the default size. */
    constructor ()
      ensures pageWidth == PageWidth
      ensures ops == [] && savedAs == None
    {
      pageWidth := PageWidth;
      ops := [];
      lastTableFinalY := 0.0;
      savedAs := None;
    }

    /** `doc.text(arg, x, y, {align})` */
    method Text(arg: JsValue, x: real, y: real, align: Align)
      modifies this`ops
      ensures ops == old(ops) + [DrawOp.Text(arg, x, y, align)]
    {
      ops := ops + [DrawOp.Text(arg, x, y, align)];
    }

    /** `doc.line(x1, y1, x2, y2)` */
    method Line(x1: real, y1: real, x2: real, y2: real)
      modifies this`ops
      ensures ops == old(ops) + [DrawOp.Line(x1, y1, x2, y2)]
    {
      ops := ops + [DrawOp.Line(x1, y1, x2, y2)];
    }

    /** `doc.autoTable({startY, head: [head], body, margin: {left}})`; the
        plugin lays the table out and reports its end as `finalY`. */
    method AutoTable(startY: real, head: seq<string>, body: seq<seq<JsValue>>, marginLeft: real, finalY: real)
      modifies this`ops, this`lastTableFinalY
      ensures ops == old(ops) + [Table(startY, head, body, marginLeft)]
      ensures lastTableFinalY == finalY
    {
      ops := ops + [Table(startY, head, body, marginLeft)];
      lastTableFinalY := finalY;
    }

    /** `doc.save(fileName)` */
    method Save(fileName: string)
      modifies this`savedAs
      ensures savedAs == Some(fileName)
    {
      savedAs := Some(fileName);
    }
  }

  /** Draws one party block with its heading at `y`; returns the cursor at
      its last line. */
  method DrawParty(doc: PdfDoc, heading: string, keys: PartyKeys, data: Record, host: Host, y: real)
    returns (currentY: real)
    modifies doc`ops
    ensures doc.ops == old(doc.ops) + PartyBlock(heading, keys, y, data, host)
    ensures currentY == y + 36.0
  {
    var leftMargin := LeftMargin;
    currentY := y;
    doc.Text(Str(heading), leftMargin, currentY, AlignLeft);
    currentY := currentY + 6.0;
    doc.Text(Or(Get(data, keys.name), Str("N/A")), leftMargin, currentY, AlignLeft);
    currentY := currentY + 6.0;
    doc.Text(Or(Get(data, keys.street), Str("N/A")), leftMargin, currentY, AlignLeft);
    currentY := currentY + 6.0;
    doc.Text(Str(ToString(Or(Get(data, keys.city), Str("")), host) + ", "
                 + ToString(Or(Get(data, keys.state), Str("")), host) + " "
                 + ToString(Or(Get(data, keys.zip), Str("")), host)),
             leftMargin, currentY, AlignLeft);
    currentY := currentY + 6.0;
    doc.Text(Or(Get(data, keys.country), Str("N/A")), leftMargin, currentY, AlignLeft);
    currentY := currentY + 6.0;
    doc.Text(Str("Phone: " + ToString(Or(Get(data, keys.phone), Str("N/A")), host)), leftMargin, currentY, AlignLeft);
    currentY := currentY + 6.0;
    doc.Text(Str("Email: " + ToString(Or(Get(data, keys.email), Str("N/A")), host)), leftMargin, currentY, AlignLeft);
  }

  /** Draws the optional notes and terms below the total line at `y`. */
  method DrawNotesAndTerms(doc: PdfDoc, data: Record, y: real)
    modifies doc`ops
    ensures doc.ops == old(doc.ops) + OptionalSections(data, y)
  {
    var leftMargin := LeftMargin;
    var currentY := y;

    // Notes.
    var notes := Get(data, "notes");
    if Truthy(notes) {
      currentY := currentY + 10.0;
      doc.Text(Str("Notes:"), leftMargin, currentY, AlignLeft);
      currentY := currentY + 6.0;
      doc.Text(notes, leftMargin, currentY, AlignLeft);
    }

    // Terms and conditions.
    var terms := Get(data, "termsAndConditions");
    if Truthy(terms) {
      currentY := currentY + 10.0;
      doc.Text(Str("Terms and Conditions:"), leftMargin, currentY, AlignLeft);
      currentY := currentY + 6.0;
      doc.Text(terms, leftMargin, currentY, AlignLeft);
    }
  }

  /** Generates the invoice document for `data`. `tableFinalY` is where the
      table plugin reports the items table to end. The calls made and the
      outcome are exactly those of `Render`. */
  method GeneratePdf(data: Record, host: Host, tableFinalY: real) returns (doc: PdfDoc, outcome: Outcome)
    ensures fresh(doc)
    ensures doc.ops == Render(data, host, tableFinalY).ops
    ensures outcome == Render(data, host, tableFinalY).outcome
    ensures doc.savedAs == if outcome.Saved? then Some(outcome.fileName) else None
  {
    doc := new PdfDoc();
    var leftMargin := LeftMargin;
    var currentY := 20.0;

    // Title, centred on the page.
    doc.Text(Str("INVOICE"), doc.pageWidth / 2.0, currentY, AlignCenter);

    // Invoice details.
    currentY := currentY + 15.0;
    doc.Text(Str("Invoice Number: " + ToString(Or(Get(data, "invoiceNumber"), Str("N/A")), host)), leftMargin, currentY, AlignLeft);
    currentY := currentY + 6.0;
    doc.Text(Str("Issue Date: " + ToString(Or(Get(data, "issueDate"), Str("N/A")), host)), leftMargin, currentY, AlignLeft);
    currentY := currentY + 6.0;
    doc.Text(Str("Due Date: " + ToString(Or(Get(data, "dueDate"), Str("N/A")), host)), leftMargin, currentY, AlignLeft);
    assert doc.ops == TitleAndMetadata(data, host);

    // Separator.
    currentY := currentY + 10.0;
    doc.Line(leftMargin, currentY, 190.0, currentY);
    currentY := currentY + 10.0;

    // Seller, then buyer.
    currentY := DrawParty(doc, "From:", SellerKeys, data, host, currentY);
    currentY := currentY + 10.0;
    currentY := DrawParty(doc, "To:", BuyerKeys, data, host, currentY);
    assert doc.ops == Letterhead(data, host);

    // Items table.
    currentY := currentY + 10.0;
    var lineItems := LineItems(data);
    if lineItems.Err? {
      // `items.map` throws: nothing further is drawn and nothing is saved.
      outcome := Threw(lineItems.error);
      return;
    }
    var items := lineItems.value;
    var tableRows := TableRows(items, host);
    doc.AutoTable(currentY, TableHead, tableRows, leftMargin, tableFinalY);
    currentY := doc.lastTableFinalY + 10.0;

    // Total amount.
    var total := Total(items, host);
    doc.Text(Str("Total Amount: $" + host.fixed2(total)), 180.0, currentY, AlignRight);
    assert doc.ops == Letterhead(data, host)
      + [Table(TableTop, TableHead, TableRows(items, host), LeftMargin), TotalLine(items, host, tableFinalY)];

    DrawNotesAndTerms(doc, data, currentY);

    // Save.
    var fileName := "Invoice-" + ToString(Or(Get(data, "invoiceNumber"), Str("draft")), host) + ".pdf";
    doc.Save(fileName);
    outcome := Saved(fileName);
  }

  /** Generating twice from the same record, with the table ending at the
      same place, draws the same calls and ends the same way. */
  method GenerateTwice(data: Record, host: Host, tableFinalY: real)
    returns (first: seq<DrawOp>, second: seq<DrawOp>, outcome1: Outcome, outcome2: Outcome)
    ensures first == second
    ensures outcome1 == outcome2
  {
    var doc1, doc2;
    doc1, outcome1 := GeneratePdf(data, host, tableFinalY);
    doc2, outcome2 := GeneratePdf(data, host, tableFinalY);
    first, second := doc1.ops, doc2.ops;
  }
}
