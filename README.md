# mintbill invoice core in Dafny

mintbill builds an invoice with a step-by-step wizard whose steps and fields
come from a JSON schema, and then prints the invoice as a PDF. This project
models the two parts of it that carry logic:

- **The document generator** (`generatePdf` in `src/util.ts`). It walks the
  invoice record, moves a vertical cursor down the page and issues text, line
  and table calls on a fresh jsPDF document, then saves it under a name built
  from the invoice number. `PdfGenerator.GeneratePdf` is an imperative method
  over a `PdfDoc` object that records those calls. Its postcondition equates
  the calls with `InvoiceLayout.Render`, a pure description of the document
  with absolute coordinates. The layout lemmas are stated about `Render`:
  fixed positions, the `"N/A"` fallbacks, one table row per item, the total as
  a sum, and the optional notes and terms.
- **The wizard's field binder and footer** (`src/App.tsx`). These are pure
  functions: the record update done by `handleChange`, the value an input
  shows, which input a field type renders, the step labels built from the
  schema, and the footer's buttons and what the primary button does.

The invoice record is `map<string, JsValue>`. `JsValue` stands for the
JavaScript values a loosely typed record can hold. `JsValues` defines the
JavaScript rules the code relies on: truthiness, `||`, `??`, property reads,
`Number(..)` and template-literal conversion. The runtime's own number
conversions are left abstract in a `Host` parameter: parsing a string with
`Number`, printing a number with `String`, and `toFixed(2)`.

Files: `js_values.dfy`, `decimal.dfy` (decimal numerals for the step
labels), `invoice_items.dfy` (items table and total), `invoice_layout.dfy`
(the document as a function), `pdf_generator.dfy` (the imperative generator),
`form_fields.dfy` and `wizard.dfy`.

Some consequences of the code that the model makes explicit:
- The document total is the sum, over `items`, of `Number(item.price) || 0`
  times `Number(item.quantity) || 0`. Nothing else enters it.
- Number fields store the raw input string. Nothing is parsed when a value
  is written.
- On the last step the primary button reads "Finish" and calls
  `handleSubmit`. It does not call `nextStep`.
- Table pagination and header repetition belong to the table plugin. The
  generator makes one table call and reads back where the table ended.
- The saved file is `Invoice-<invoiceNumber>.pdf`, or `Invoice-draft.pdf`
  when the number is falsy.
- No input is rendered for array-typed fields, so the wizard never fills
  `items`. `Wizard.WizardRecordsHaveNoItems` proves the consequence: a
  document built from a wizard record always has an empty table and a total
  of 0.
- Step labels print `index + 1` with `Decimal.NatToString`, a concrete
  decimal numeral. `String(qty)` in the items table goes through the abstract
  `Host.show` instead. The two are separate models of number printing, and
  no lemma ties them together.

## Model

| member | source | states |
|---|---|---|
| `JsValues.NumberOrZero` | src/util.ts:111-112 | the result is what the model's `\|\|` gives on the number `Number(v)` and 0; so missing, null or NaN operands and unparsable strings coerce to 0, and a number is kept |
| `InvoiceItems.LineItems` | src/util.ts:108-119 | a falsy `items` is the empty list and an array without null/undefined elements gives its elements; a truthy non-array throws, and so does an array with a null/undefined element, reporting the first such index; on success every item is readable |
| `InvoiceItems.LineAmount` | src/util.ts:135-139 | an item whose price or quantity does not convert to a number contributes 0 |
| `InvoiceItems.TableRows` | src/util.ts:110-119 | exactly one row per item, in item order, with row i built from item i |
| `InvoiceItems.RowsShowAmounts` | src/util.ts:113-118 | each row has four cells: `String(qty)`, `"$"` + price, and `"$"` + the item's amount, with price and quantity coerced by `Number(..) \|\| 0` |
| `InvoiceItems.DescriptionCell` | src/util.ts:114 | the first cell is the description when it is truthy and "N/A" otherwise |
| `InvoiceItems.ReduceAddsSum` | src/util.ts:135-139 | the `reduce` left fold from a start value adds the sum of the line amounts to that value |
| `InvoiceItems.TotalIsSum` | src/util.ts:135-139 | the document total equals the sum of price times quantity over the items; no items gives 0 |
| `InvoiceItems.SumAppend` | src/util.ts:135-139 | appending an item raises the sum by exactly that item's amount |
| `InvoiceItems.UnpricedItemsAddNothing` | src/util.ts:135-139 | items whose price or quantity is missing or not a number add up to 0 |
| `InvoiceLayout.FileName` | src/util.ts:168 | the file is `Invoice-<number>.pdf` for a truthy string number and `Invoice-draft.pdf` when the number is falsy |
| `InvoiceLayout.Render` | src/util.ts:106-168 | when the item list throws, only the letterhead has been drawn and nothing is saved; otherwise the full layout is drawn and saved under `FileName` |
| `InvoiceLayout.RenderStartsWithLetterhead` | src/util.ts:14-110 | the 19 letterhead calls are drawn first whether or not reading the item list then throws |
| `InvoiceLayout.LetterheadPositions` | src/util.ts:14-104 | the title is centred at (105, 20); the metadata lines are at y 35, 41 and 47; the rule runs from (20, 57) to (190, 57); "From:" is at y 67 and "To:" at 113; every other letterhead line is left-aligned at x 20 |
| `InvoiceLayout.MetadataFallback` | src/util.ts:38-50 | a metadata line prints "N/A" for a falsy field and the field's text otherwise |
| `InvoiceLayout.PartyFieldFallback` | src/util.ts:64-104 | name, street and country pass the field when truthy and "N/A" otherwise, so they are never blank |
| `InvoiceLayout.CityLineShape` | src/util.ts:68-74 | the city line uses "" per missing part, never "N/A": all parts missing gives ",  ", and string parts give "city, state zip" |
| `InvoiceLayout.TableAndTotal` | src/util.ts:106-144 | the letterhead comes first; the table starts at y 159 with the header Item/Quantity/Price/Total, has one row per item and a left margin of 20; the total line is right-aligned at (180, finalY + 10) and shows the sum of the line amounts |
| `InvoiceLayout.OptionalSectionsPlacement` | src/util.ts:147-165 | notes are drawn exactly when `notes` is truthy, and terms exactly when `termsAndConditions` is; notes come before terms; each section has a label 10 below the previous line and its text 6 further down |
| `InvoiceLayout.PartyBlockGeometry` | src/util.ts:59-104 | a party block takes seven left-aligned lines at x 20, 6 units apart from its heading |
| `InvoiceLayout.OptionalSectionsGeometry` | src/util.ts:147-165 | the notes and terms are placed on a record-free geometry that depends only on the total line's y and on which of the two are present |
| `InvoiceLayout.LayoutGeometry` | src/util.ts:14-165 | the position of every draw call equals a record-free reference geometry that depends only on finalY and on whether notes and terms are present |
| `InvoiceLayout.GeometryIndependentOfContent` | src/util.ts:14-165 | two records with the same notes/terms presence are laid out at identical positions, whatever their texts, items or number formatting |
| `InvoiceLayout.AlignmentDiscipline` | src/util.ts:26-165 | every left-aligned text is at x 20; the only centred text is the title and the only right-aligned text is the total |
| `InvoiceLayout.MissingNumberDraftFile` | src/util.ts:38-168 | a falsy invoice number prints as "Invoice Number: N/A" and a saved file is then named `Invoice-draft.pdf` |
| `PdfGenerator.PdfDoc.constructor` | src/util.ts:11 | a new document has the default page width and no draw calls, and has not been saved |
| `PdfGenerator.PdfDoc.Text` | src/util.ts:38-42 | a text call appends one text instruction and changes nothing else |
| `PdfGenerator.PdfDoc.Line` | src/util.ts:56 | a line call appends one line instruction and changes nothing else |
| `PdfGenerator.PdfDoc.AutoTable` | src/util.ts:121-132 | the table call appends one table instruction and records where the plugin says the table ends |
| `PdfGenerator.PdfDoc.Save` | src/util.ts:168 | saving records the file name and changes nothing else |
| `PdfGenerator.DrawParty` | src/util.ts:59-104 | drawing a party block with the running cursor appends exactly the reference block and leaves the cursor 36 below the heading |
| `PdfGenerator.DrawNotesAndTerms` | src/util.ts:147-165 | the cursor-driven notes and terms code appends exactly the reference optional sections |
| `PdfGenerator.GeneratePdf` | src/util.ts:10-169 | the cursor-driven generator makes exactly the draw calls of `Render` on a fresh document, ends with its outcome, and saves the file only when no TypeError was thrown |
| `PdfGenerator.GenerateTwice` | src/util.ts:10-169 | two generations from the same record, with the table ending at the same place, draw identical calls and return equal outcomes |
| `FormFields.HandleChange` | src/App.tsx:116-120 | after an edit the field's key maps to the new value, the keys are the old keys plus that one, and every other key keeps its value |
| `FormFields.OnInput` | src/App.tsx:138-158 | every input stores its raw text under the field's name as a string, for number fields too |
| `FormFields.ShownValue` | src/App.tsx:137 | an input shows the stored value if it is not null or undefined, else the default, else "" |
| `FormFields.EditThenShow` | src/App.tsx:116-138 | after typing a value into a field, the field shows that value |
| `FormFields.EditOverwrites` | src/App.tsx:116-120 | a second edit of a field replaces the first entirely |
| `FormFields.EditsCommute` | src/App.tsx:116-120 | edits of different fields do not interfere, and their order does not matter |
| `FormFields.StoredEmptyHidesDefault` | src/App.tsx:147 | a stored empty string is shown as it is, and the default does not replace it |
| `FormFields.EditIgnoresTypeAndRequired` | src/App.tsx:131-160 | the record after an edit does not depend on the field's type or on `required`; a number field stores the raw string |
| `FormFields.RequiredIsPresentationOnly` | src/App.tsx:126-136 | `required` adds " *" to the label and sets the input's `required` attribute, and changes nothing else |
| `FormFields.OnlyKnownTypesRender` | src/App.tsx:131-161 | a field gets an input exactly when its type is string, date or number, of type text, date or number respectively |
| `FormFields.OnInputKeepsStrings` | src/App.tsx:116-158 | a record holding only strings still holds only strings after an edit |
| `Decimal.NatToString` | src/App.tsx:38 | `${n}` of a natural is a non-empty string of digits with no leading zero (JavaScript prints this form below 10^21, which covers every array index plus one) |
| `Decimal.DecimalRoundTrip` | src/App.tsx:38 | reading back the numeral of n gives n |
| `Wizard.StepsFollowSchema` | src/App.tsx:35-41 | steps map one to one and in order onto the schema's steps; the label is the title if it is non-empty, else "Step " followed by the 1-based position |
| `Wizard.StepLabelsNonEmpty` | src/App.tsx:38 | no step label is empty |
| `Wizard.UntitledLabelsDistinct` | src/App.tsx:38-51 | two untitled steps never get the same label, which the step list uses as its key |
| `Wizard.PrimaryLabel` | src/App.tsx:209 | the label is "Finish" exactly on the last step, "Skip" exactly on an optional step that is not last, and "Next" otherwise |
| `Wizard.PrimaryAction` | src/App.tsx:201-209 | a click submits exactly when the button reads "Finish", and it hands over the current record; any other click advances |
| `Wizard.PrimaryLabelMatchesAction` | src/App.tsx:201-209 | the button reads "Finish" exactly when clicking it submits; it never both submits and advances; whether a step is optional never changes what the click does |
| `Wizard.FooterShape` | src/App.tsx:179-212 | once all steps are complete the footer only offers Reset; before that it offers Prev, disabled as the stepper says, and the primary button |
| `Wizard.HandleSubmit` | src/App.tsx:23-30 | submitting produces exactly the draw calls and the outcome of `Render` for the submitted record, and the document is saved under the outcome's file name exactly when generation did not throw |
| `Wizard.InvoiceNumberReachesDocument` | src/App.tsx:116-120 | typing a non-empty invoice number prints it on the document's number line and, if the file is saved, names it `Invoice-<number>.pdf` |
| `Wizard.WizardRecordsHaveNoItems` | src/App.tsx:131-161 | a string-only record, the only kind the wizard builds, gives a saved document with an empty table and a total of 0; a non-empty string under `items` makes generation throw |

## Left out

- Fonts, font sizes, draw colour and line width (`setFont`, `setFontSize`, `setDrawColor`, `setLineWidth`) only affect how the document looks. They are not recorded. Neither are the table's `theme`, `headStyles` and `styles` options (src/util.ts:126-128); `PdfDoc.AutoTable` records only the start, header, body and left margin.
- The table plugin's layout, pagination and header repetition happen in a library. The generator takes the reported table end (`lastAutoTable.finalY`) as a parameter, so the model does not know page boundaries.
- What jsPDF does with a non-string first argument to `text` is library behaviour. The model records the argument as passed.
- Floating point is not modelled. Amounts are exact reals, `price * qty` is exact, and Infinity and negative zero are absent. `Number(string)`, `String(number)` and `toFixed(2)` are abstract functions in the `Host` parameter.
- Decimal.NatToString: it prints every natural in plain digits. JavaScript switches to exponent notation ("1e+21") from 10^21 up, which no step position reaches.
- JsValues.ToNumber: an array or object converts through its string form, and that form goes to the abstract parser. Boxed values and objects with `valueOf`/`toString` methods are not modelled.
- JsValues.Prop: only the own data keys of plain objects are modelled. Built-in properties of strings, arrays and prototypes are absent. The code only reads `price`, `quantity` and `description`, none of which are built in.
- `doc.save`'s download, `console.log` and `alert` are I/O. `Save` records the file name, and `HandleSubmit` leaves out the log and the alert.
- The stepper (`useStepper`, `Stepper`, `Step`) is not part of this model. `hasCompletedAllSteps`, `isLastStep`, `isOptionalStep` and `isDisabledStep` are inputs, and `nextStep`, `prevStep` and `resetSteps` are named actions whose effect is not modelled.
- The schema file `invoiceStructure.json` is not part of this model. The step definitions are a parameter.
- JSX markup, CSS classes, React keys and state plumbing are left out beyond the record updater itself. Also left out: the landing page, the animated button, routing and build configuration.
