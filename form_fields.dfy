/** The field binder of the invoice wizard: how one schema field is shown and
    how an edit to it is written into the invoice record. */
module FormFields {
  import opened JsValues

  /** The schema's `type` of a field; anything other than the three handled
      kinds (an array of line items, say) is kept by its tag. */
  datatype FieldType = StringField | NumberField | DateField | OtherField(tag: string)

  datatype FieldDefinition = FieldDefinition(
    name: string,
    caption: string,
    fieldType: FieldType,
    required: bool,
    defaultValue: Option<string>)

  /** The HTML input kinds the form renders. */
  datatype InputType = TextInput | DateInput | NumberInput

  /** One rendered `<input>`: its id, type, `required` attribute and value. */
  datatype InputView = InputView(id: string, inputType: InputType, required: bool, value: JsValue)

  /** One rendered field: the label (its target and text) and the input, if any. */
  datatype FieldView = FieldView(htmlFor: string, labelText: string, input: Option<InputView>)

  /** The functional updater `handleChange` hands to the state setter: a fresh
      record that maps the field's name to the new value and keeps every other
      key as it was. */
  function HandleChange(prev: Record, field: FieldDefinition, newValue: JsValue): (next: Record)
    ensures field.name in next && next[field.name] == newValue
    ensures next.Keys == prev.Keys + {field.name}
    ensures forall k | k in prev && k != field.name :: next[k] == prev[k]
  {
    prev[field.name := newValue]
  }

  /** The `onChange` of every rendered input: the raw text of the input is
      written as it is, for number fields too. */
  function OnInput(rec: Record, field: FieldDefinition, raw: string): (next: Record)
    ensures Get(next, field.name) == Str(raw)
  {
    HandleChange(rec, field, Str(raw))
  }

  /** `field.defaultValue` as a JavaScript value. */
  function DefaultOf(field: FieldDefinition): JsValue {
    match field.defaultValue
    case Some(d) => Str(d)
    case None => Undefined
  }

  /** `invoiceData[field.name] ?? field.defaultValue ?? ""` */
  function ShownValue(rec: Record, field: FieldDefinition): (v: JsValue)
    ensures !Nullish(Get(rec, field.name)) ==> v == Get(rec, field.name)
    ensures Nullish(Get(rec, field.name)) && field.defaultValue.Some? ==> v == Str(field.defaultValue.value)
    ensures Nullish(Get(rec, field.name)) && field.defaultValue.None? ==> v == Str("")
  {
    Coalesce(Get(rec, field.name), Coalesce(DefaultOf(field), Str("")))
  }

  /** Which input a field type renders, if any. */
  function InputTypeOf(t: FieldType): Option<InputType> {
    match t
    case StringField => Some(TextInput)
    case DateField => Some(DateInput)
    case NumberField => Some(NumberInput)
    case OtherField(_) => None
  }

  /** `FormField`: the label, with " *" after it for required fields, and the
      input for the field's type showing the current value. */
  function RenderField(field: FieldDefinition, rec: Record): FieldView {
    var labelText := field.caption + (if field.required then " *" else "");
    var input := match InputTypeOf(field.fieldType)
      case Some(t) => Some(InputView(field.name, t, field.required, ShownValue(rec, field)))
      case None => None;
    FieldView(field.name, labelText, input)
  }

  // ---------------------------------------------------------------------
  // Properties of the binder

  /** After typing `raw` into a field, the field shows `raw`, whatever it held
      before and whatever its default. */
  lemma EditThenShow(rec: Record, field: FieldDefinition, raw: string)
    ensures ShownValue(OnInput(rec, field, raw), field) == Str(raw)
    ensures RenderField(field, OnInput(rec, field, raw)).input.Some? ==>
              RenderField(field, OnInput(rec, field, raw)).input.value.value == Str(raw)
  {
  }

  /** A second edit of the same field replaces the first entirely. */
  lemma EditOverwrites(rec: Record, field: FieldDefinition, a: JsValue, b: JsValue)
    ensures HandleChange(HandleChange(rec, field, a), field, b) == HandleChange(rec, field, b)
  {
  }

  /** Edits of two different fields do not interfere: their order does not matter. */
  lemma EditsCommute(rec: Record, f: FieldDefinition, g: FieldDefinition, a: JsValue, b: JsValue)
    requires f.name != g.name
    ensures HandleChange(HandleChange(rec, f, a), g, b) == HandleChange(HandleChange(rec, g, b), f, a)
  {
  }

  /** A stored empty string is shown as it is: it hides the default. Only a
      missing, null or undefined value lets the default through. */
  lemma StoredEmptyHidesDefault(rec: Record, field: FieldDefinition)
    requires Get(rec, field.name) == Str("")
    ensures ShownValue(rec, field) == Str("")
  {
  }

  /** Writing neither parses nor validates: the record after an edit is the
      same whatever the field's type and whether it is required. */
  lemma EditIgnoresTypeAndRequired(rec: Record, field: FieldDefinition, raw: string, t: FieldType, req: bool)
    ensures OnInput(rec, field, raw) == OnInput(rec, field.(fieldType := t, required := req), raw)
    ensures Get(OnInput(rec, field.(fieldType := NumberField), raw), field.name) == Str(raw)
  {
  }

  /** `required` changes only the label's " *" suffix and the input's
      `required` attribute. */
  lemma RequiredIsPresentationOnly(field: FieldDefinition, rec: Record)
    ensures var on := RenderField(field.(required := true), rec);
      var off := RenderField(field.(required := false), rec);
      && on.labelText == off.labelText + " *"
      && off.labelText == field.caption
      && on.htmlFor == off.htmlFor
      && on.input.Some? == off.input.Some?
      && (on.input.Some? ==> on.input.value == off.input.value.(required := true)
                             && !off.input.value.required)
  {
  }

  /** Only string, date and number fields produce an input; every other type
      renders its label alone. */
  lemma OnlyKnownTypesRender(field: FieldDefinition, rec: Record)
    ensures RenderField(field, rec).input.None? <==> field.fieldType.OtherField?
    ensures field.fieldType == StringField ==> RenderField(field, rec).input.value.inputType == TextInput
    ensures field.fieldType == DateField ==> RenderField(field, rec).input.value.inputType == DateInput
    ensures field.fieldType == NumberField ==> RenderField(field, rec).input.value.inputType == NumberInput
  {
  }

  /** Every value the form writes is a string. */
  predicate StringValued(rec: Record) {
    forall k | k in rec :: rec[k].Str?
  }

  /** Editing keeps a record string-valued: starting from the empty record,
      the wizard only ever holds strings. */
  lemma OnInputKeepsStrings(rec: Record, field: FieldDefinition, raw: string)
    requires StringValued(rec)
    ensures StringValued(OnInput(rec, field, raw))
  {
  }
}
