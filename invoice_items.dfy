/** The items table and the total of the printed invoice: which list is read,
    how each item becomes a table row, and the fold that adds up the total. */
module InvoiceItems {
  import opened JsValues

  /** The two ways reading the item list can throw a TypeError. */
  datatype ItemsError =
    | ItemsNotArray        // `items` is truthy but has no `map` method
    | NullishItem(index: nat)  // reading a property of a null/undefined item

  /** The columns of the items table. */
  const TableHead: seq<string> := ["Item", "Quantity", "Price", "Total"]

  /** Every item's properties can be read. */
  predicate Readable(items: seq<JsValue>) {
    forall i | 0 <= i < |items| :: !Nullish(items[i])
  }

  /** Index of the first null or undefined item, if any. */
  function FirstNullish(items: seq<JsValue>): (r: Option<nat>)
    ensures r.None? <==> Readable(items)
    ensures r.Some? ==> r.value < |items| && Nullish(items[r.value])
    ensures r.Some? ==> Readable(items[..r.value])
  {
    if items == [] then None
    else if Nullish(items[0]) then Some(0)
    else match FirstNullish(items[1..])
      case None => None
      case Some(k) => Some(k + 1)
  }

  /** `invoiceData.items || []` followed by `.map(item => item.price ...)`:
      a falsy `items` is the empty list, an array is its elements, anything
      else throws; so does the first null or undefined element. */
  function LineItems(data: Record): (r: Result<seq<JsValue>, ItemsError>)
    ensures !Truthy(Get(data, "items")) ==> r == Ok([])
    ensures Get(data, "items").Arr? && Readable(Get(data, "items").elems)
            ==> r == Ok(Get(data, "items").elems)
    ensures r.Ok? ==> Readable(r.value)
    ensures r == Err(ItemsNotArray) <==> Truthy(Get(data, "items")) && !Get(data, "items").Arr?
    ensures r.Err? && r.error.NullishItem? ==>
              Get(data, "items").Arr? && r.error.index < |Get(data, "items").elems|
              && Nullish(Get(data, "items").elems[r.error.index])
    ensures Get(data, "items").Arr? && !Readable(Get(data, "items").elems) ==>
              r.Err? && r.error.NullishItem?
              && Readable(Get(data, "items").elems[..r.error.index])
  {
    var items := Or(Get(data, "items"), Arr([]));
    if !items.Arr? then Err(ItemsNotArray)
    else match FirstNullish(items.elems)
      case Some(k) => Err(NullishItem(k))
      case None => Ok(items.elems)
  }

  /** `Number(item.price) || 0` */
  function Price(item: JsValue, host: Host): real
    requires !Nullish(item)
  {
    NumberOrZero(Prop(item, "price"), host)
  }

  /** `Number(item.quantity) || 0` */
  function Quantity(item: JsValue, host: Host): real
    requires !Nullish(item)
  {
    NumberOrZero(Prop(item, "quantity"), host)
  }

  /** `price * qty`, the amount one item contributes. */
  function LineAmount(item: JsValue, host: Host): (r: real)
    requires !Nullish(item)
    ensures ToNumber(Prop(item, "price"), host).None? ==> r == 0.0
    ensures ToNumber(Prop(item, "quantity"), host).None? ==> r == 0.0
  {
    Price(item, host) * Quantity(item, host)
  }

  /** One body row of the items table. */
  function Row(item: JsValue, host: Host): seq<JsValue>
    requires !Nullish(item)
  {
    [ Or(Prop(item, "description"), Str("N/A")),
      Str(host.show(Quantity(item, host))),
      Str("$" + host.fixed2(Price(item, host))),
      Str("$" + host.fixed2(LineAmount(item, host))) ]
  }

  /** `items.map(...)`: one row per item, in item order. */
  function TableRows(items: seq<JsValue>, host: Host): (rows: seq<seq<JsValue>>)
    requires Readable(items)
    ensures |rows| == |items|
    ensures forall i | 0 <= i < |items| :: rows[i] == Row(items[i], host)
  {
    if items == [] then [] else [Row(items[0], host)] + TableRows(items[1..], host)
  }

  /** `items.reduce((sum, item) => sum + price * qty, acc)`, a left fold. */
  function Reduce(items: seq<JsValue>, acc: real, host: Host): real
    requires Readable(items)
  {
    if items == [] then acc else Reduce(items[1..], acc + LineAmount(items[0], host), host)
  }

  /** The document total: the fold started at 0. */
  function Total(items: seq<JsValue>, host: Host): real
    requires Readable(items)
  {
    Reduce(items, 0.0, host)
  }

  /** Reference definition: the sum of the line amounts. */
  function SumAmounts(items: seq<JsValue>, host: Host): real
    requires Readable(items)
  {
    if items == [] then 0.0 else LineAmount(items[0], host) + SumAmounts(items[1..], host)
  }

  /** The fold adds the sum of the line amounts to its starting value. */
  lemma {:induction false} ReduceAddsSum(items: seq<JsValue>, acc: real, host: Host)
    requires Readable(items)
    ensures Reduce(items, acc, host) == acc + SumAmounts(items, host)
  {
    if items != [] {
      ReduceAddsSum(items[1..], acc + LineAmount(items[0], host), host);
    }
  }

  /** The total is the sum of price times quantity over the items. */
  lemma TotalIsSum(items: seq<JsValue>, host: Host)
    requires Readable(items)
    ensures Total(items, host) == SumAmounts(items, host)
  {
    ReduceAddsSum(items, 0.0, host);
  }

  /** Appending an item raises the total by exactly that item's amount. */
  lemma {:induction false} SumAppend(items: seq<JsValue>, item: JsValue, host: Host)
    requires Readable(items) && !Nullish(item)
    ensures Readable(items + [item])
    ensures SumAmounts(items + [item], host) == SumAmounts(items, host) + LineAmount(item, host)
  {
    if items != [] {
      assert (items + [item])[1..] == items[1..] + [item];
      SumAppend(items[1..], item, host);
    }
  }

  /** An item whose price or quantity is missing or does not convert to a
      number contributes nothing, so a list of such items sums to 0. */
  lemma {:induction false} UnpricedItemsAddNothing(items: seq<JsValue>, host: Host)
    requires Readable(items)
    requires forall i | 0 <= i < |items| ::
               ToNumber(Prop(items[i], "price"), host).None? || ToNumber(Prop(items[i], "quantity"), host).None?
    ensures SumAmounts(items, host) == 0.0
  {
    if items != [] {
      UnpricedItemsAddNothing(items[1..], host);
    }
  }

  /** The table's last column shows, row by row, exactly the amounts that the
      total adds up; the other columns show the coerced operands. */
  lemma RowsShowAmounts(items: seq<JsValue>, host: Host, i: nat)
    requires Readable(items) && i < |items|
    ensures |TableRows(items, host)[i]| == 4
    ensures TableRows(items, host)[i][1] == Str(host.show(Quantity(items[i], host)))
    ensures TableRows(items, host)[i][2] == Str("$" + host.fixed2(Price(items[i], host)))
    ensures TableRows(items, host)[i][3] == Str("$" + host.fixed2(LineAmount(items[i], host)))
  {
  }

  /** The first cell is the description, or "N/A" when it is falsy. */
  lemma DescriptionCell(item: JsValue, host: Host)
    requires !Nullish(item)
    ensures Truthy(Prop(item, "description")) ==> Row(item, host)[0] == Prop(item, "description")
    ensures !Truthy(Prop(item, "description")) ==> Row(item, host)[0] == Str("N/A")
  {
  }
}
