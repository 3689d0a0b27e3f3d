/** The wizard of the invoice app: the step list built from the schema, the
    footer's buttons and what the primary button does, and how the record
    the wizard accumulates reaches the document generator. */
module Wizard {
  import opened JsValues
  import opened Decimal
  import opened FormFields
  import opened InvoiceItems
  import opened InvoiceLayout
  import opened PdfGenerator

  datatype StepDefinition = StepDefinition(
    stepId: string,
    title: string,
    description: string,
    fields: seq<FieldDefinition>)

  /** A step as the stepper receives it: its label and its definition. */
  datatype StepItem = StepItem(stepLabel: string, meta: StepDefinition)

  /** `stepDefinition.title || "Step " + (index + 1)` */
  function StepLabel(def: StepDefinition, index: nat): string {
    if def.title != "" then def.title else "Step " + NatToString(index + 1)
  }

  /** `jsonSteps.map((stepDefinition, index) => ...)` */
  function Steps(defs: seq<StepDefinition>): seq<StepItem> {
    seq(|defs|, i requires 0 <= i < |defs| => StepItem(StepLabel(defs[i], i), defs[i]))
  }

  /** Steps map one to one and in order onto the definitions; a step is
      labelled by its title, or by its 1-based position when untitled. */
  lemma StepsFollowSchema(defs: seq<StepDefinition>, i: nat)
    requires i < |defs|
    ensures |Steps(defs)| == |defs|
    ensures Steps(defs)[i].meta == defs[i]
    ensures defs[i].title != "" ==> Steps(defs)[i].stepLabel == defs[i].title
    ensures defs[i].title == "" ==> Steps(defs)[i].stepLabel == "Step " + NatToString(i + 1)
  {
  }

  /** No step has an empty label. */
  lemma StepLabelsNonEmpty(defs: seq<StepDefinition>, i: nat)
    requires i < |defs|
    ensures Steps(defs)[i].stepLabel != []
  {
  }

  /** Untitled steps get pairwise different labels, so they never share a key. */
  lemma UntitledLabelsDistinct(defs: seq<StepDefinition>, i: nat, j: nat)
    requires i < |defs| && j < |defs| && i != j
    requires defs[i].title == "" && defs[j].title == ""
    ensures Steps(defs)[i].stepLabel != Steps(defs)[j].stepLabel
  {
    var li, lj := Steps(defs)[i].stepLabel, Steps(defs)[j].stepLabel;
    NatToStringInjective(i + 1, j + 1);
    assert li[5..] == NatToString(i + 1);
    assert lj[5..] == NatToString(j + 1);
  }

  /** What the stepper reports about the current position. */
  datatype StepperStatus = StepperStatus(
    hasCompletedAllSteps: bool,
    isLastStep: bool,
    isOptionalStep: bool,
    isDisabledStep: bool)

  /** What a footer button does when clicked. `Submit` hands the record over
      to `handleSubmit`. */
  datatype Action = NextStep | PrevStep | ResetSteps | Submit(data: Record)

  datatype Button = Button(text: string, disabled: bool, onClick: Action)

  /** `isLastStep ? "Finish" : isOptionalStep ? "Skip" : "Next"` */
  function PrimaryLabel(st: StepperStatus): (text: string)
    ensures text == "Finish" <==> st.isLastStep
    ensures text == "Skip" <==> !st.isLastStep && st.isOptionalStep
    ensures text == "Next" <==> !st.isLastStep && !st.isOptionalStep
  {
    if st.isLastStep then "Finish" else if st.isOptionalStep then "Skip" else "Next"
  }

  /** The primary button's click: submit on the last step, advance otherwise.
      It submits exactly when the button reads "Finish", and then hands over
      the current record. */
  function PrimaryAction(st: StepperStatus, data: Record): (a: Action)
    ensures a.Submit? <==> PrimaryLabel(st) == "Finish"
    ensures a.Submit? ==> a.data == data
    ensures !a.Submit? ==> a == NextStep
  {
    if st.isLastStep then Submit(data) else NextStep
  }

  /** The footer: a lone Reset button once every step is done, otherwise Prev
      (disabled as the stepper says) and the primary button. */
  function FooterButtons(st: StepperStatus, data: Record): seq<Button> {
    if st.hasCompletedAllSteps then [Button("Reset", false, ResetSteps)]
    else [Button("Prev", st.isDisabledStep, PrevStep),
          Button(PrimaryLabel(st), false, PrimaryAction(st, data))]
  }

  /** The primary button says "Finish" exactly when clicking it submits; it
      never both submits and advances, and whether a step is optional changes
      its label only, never what it does. */
  lemma PrimaryLabelMatchesAction(st: StepperStatus, data: Record, optional: bool)
    ensures PrimaryLabel(st) == "Finish" <==> PrimaryAction(st, data).Submit?
    ensures PrimaryAction(st, data) != NextStep <==> PrimaryAction(st, data).Submit?
    ensures PrimaryAction(st.(isOptionalStep := optional), data) == PrimaryAction(st, data)
  {
  }

  /** Before completion the footer offers Prev and the primary button; after
      it, Reset only, so nothing can submit or advance any more. */
  lemma FooterShape(st: StepperStatus, data: Record)
    ensures st.hasCompletedAllSteps ==>
              forall b | b in FooterButtons(st, data) :: b.onClick == ResetSteps
    ensures !st.hasCompletedAllSteps ==>
              |FooterButtons(st, data)| == 2
              && FooterButtons(st, data)[0] == Button("Prev", st.isDisabledStep, PrevStep)
              && FooterButtons(st, data)[1].text == PrimaryLabel(st)
              && FooterButtons(st, data)[1].onClick == PrimaryAction(st, data)
  {
  }

  /** `handleSubmit`: generates the document for the submitted record. The
      console output and the alert are left out. */
  method HandleSubmit(data: Record, host: Host, tableFinalY: real) returns (doc: PdfDoc, outcome: Outcome)
    ensures fresh(doc)
    ensures doc.ops == Render(data, host, tableFinalY).ops
    ensures outcome == Render(data, host, tableFinalY).outcome
    ensures doc.savedAs == if outcome.Saved? then Some(outcome.fileName) else None
  {
    doc, outcome := GeneratePdf(data, host, tableFinalY);
  }

  /** Typing a non-empty invoice number into its field puts it on the
      document and into the file name. */
  lemma InvoiceNumberReachesDocument(rec: Record, field: FieldDefinition, raw: string, host: Host, finalY: real)
    requires field.name == "invoiceNumber" && raw != ""
    ensures var r := Render(OnInput(rec, field, raw), host, finalY);
      && r.ops[1].arg == Str("Invoice Number: " + raw)
      && (r.outcome.Saved? ==> r.outcome.fileName == "Invoice-" + raw + ".pdf")
  {
    var data := OnInput(rec, field, raw);
    assert Get(data, "invoiceNumber") == Str(raw);
    MetadataFallback(data, host, "invoiceNumber", "Invoice Number: ");
    RenderStartsWithLetterhead(data, host, finalY);
    var r := Render(data, host, finalY);
    assert r.ops[1] == Letterhead(data, host)[1] == TitleAndMetadata(data, host)[1];
  }

  /** Records the wizard builds hold strings only, so their `items` is never
      an array: a document made from one always has an empty table and a
      total of 0, and a non-empty string under `items` makes generation throw. */
  lemma WizardRecordsHaveNoItems(rec: Record, host: Host, finalY: real)
    requires StringValued(rec)
    ensures Get(rec, "items").Str? && Get(rec, "items").s != "" ==>
              Render(rec, host, finalY).outcome == Threw(ItemsNotArray)
    ensures Render(rec, host, finalY).outcome.Saved? ==>
              Render(rec, host, finalY).ops[19].body == []
              && Render(rec, host, finalY).ops[20].arg == Str("Total Amount: $" + host.fixed2(0.0))
  {
    if Render(rec, host, finalY).outcome.Saved? {
      assert LineItems(rec) == Ok([]);
      TableAndTotal(rec, [], host, finalY);
    }
  }
}
