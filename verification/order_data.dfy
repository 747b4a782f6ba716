/** The canonical order record and its two normalisations, `OrderData.fromGrubhub`
    and `OrderData.fromDoorDash`.

    JavaScript's `x || d` replaces every falsy `x`: a missing value (None), but
    also `0` and `""`. Raw fields are therefore `Option`s, and the helpers
    below spell out which present values are still replaced. A property read on
    `undefined` throws a TypeError, so both normalisations return a `Result`. */
module OrderData {
  import opened Wrappers

  /** A nested JSON object that is carried along without being looked into. */
  datatype JsonObject = JsonObject(entries: seq<(string, string)>)

  const EmptyObject: JsonObject := JsonObject([])

  /** What the dashboard needs of a `Date`: its calendar day, hour of day and
      month (as one integer key, e.g. year * 12 + month). */
  datatype DateKey = DateKey(day: int, hour: int, month: int)

  /** The `Date` constructor: `parse` reads a string (None when it does not
      parse), and `epoch` is `new Date(null)`, time 0 in the local time zone. */
  datatype Calendar = Calendar(parse: string -> Option<DateKey>, epoch: DateKey)

  // ---------------------------------------------------------------------
  // The canonical record
  // ---------------------------------------------------------------------

  /** A Grubhub option as normalised: price and quantity always present. */
  datatype ItemOption = ItemOption(name: Option<string>, price: int, quantity: int)

  datatype ExtraOption = ExtraOption(price: int)

  /** A DoorDash `orderItemExtras` entry with its chosen options. */
  datatype ItemExtra = ItemExtra(name: Option<string>, orderItemExtraOptions: seq<ExtraOption>)

  /** Grubhub items carry `options`, DoorDash items `orderItemExtras`. */
  datatype ItemPricing = Options(options: seq<ItemOption>) | Extras(orderItemExtras: seq<ItemExtra>)

  datatype LineItem = LineItem(name: Field<string>, quantity: int, originalItemPrice: int, pricing: ItemPricing)

  /** The object literal passed to `new OrderData(data)`. */
  datatype OrderInput = OrderInput(
    date: Field<string>,
    state: Option<string>,
    dinerGrandTotal: Option<int>,
    lineItems: Option<seq<LineItem>>,
    restaurantName: Option<string>,
    subtotal: Option<int>,
    serviceFee: Option<int>,
    deliveryFee: Option<int>,
    salesTax: Option<int>,
    driverTip: Option<int>,
    donation: Option<int>,
    giftCardCredit: Option<int>,
    promotionalDiscount: Option<int>)

  /** An `OrderData` instance; money is in integer cents. */
  datatype Order = Order(
    date: Option<DateKey>,
    state: Option<string>,
    dinerGrandTotal: int,
    lineItems: seq<LineItem>,
    restaurantName: string,
    subtotal: int,
    serviceFee: int,
    deliveryFee: int,
    salesTax: int,
    driverTip: int,
    donation: int,
    giftCards: int,
    promotionalDiscount: int)

  // ---------------------------------------------------------------------
  // JavaScript truthiness
  // ---------------------------------------------------------------------

  predicate TruthyNumber(x: Option<int>) { x.Some? && x.value != 0 }

  predicate TruthyText(x: Option<string>) { x.Some? && x.value != "" }

  /** `x || 0`. */
  function OrZero(x: Option<int>): int {
    if TruthyNumber(x) then x.value else 0
  }

  /** `x || 1`: a quantity of 0 becomes 1, like a missing one. */
  function OrOne(x: Option<int>): (r: int)
    ensures r != 0
    ensures TruthyNumber(x) ==> r == x.value
    ensures !TruthyNumber(x) ==> r == 1
  {
    if TruthyNumber(x) then x.value else 1
  }

  /** `x || text` for a string field. */
  function OrText(x: Option<string>, text: string): (r: string)
    ensures text != "" ==> r != ""
    ensures TruthyText(x) ==> r == x.value
    ensures !TruthyText(x) ==> r == text
  {
    if TruthyText(x) then x.value else text
  }

  /** A money field after `|| 0`: the input when it is truthy, 0 otherwise. */
  predicate DefaultsToZero(x: Option<int>, v: int) {
    (TruthyNumber(x) ==> v == x.value) && (!TruthyNumber(x) ==> v == 0)
  }

  // ---------------------------------------------------------------------
  // The constructor
  // ---------------------------------------------------------------------

  /** `parseDate`: a missing or unparsable date becomes null, while a `null`
      date is `new Date(null)`, the epoch. */
  function ParseDate(text: Field<string>, calendar: Calendar): (r: Option<DateKey>)
    ensures r.None? <==> text.Missing? || (text.Present? && calendar.parse(text.value).None?)
    ensures text.Null? ==> r == Some(calendar.epoch)
    ensures text.Present? ==> r == calendar.parse(text.value)
  {
    match text
    case Missing => None
    case Null => Some(calendar.epoch)
    case Present(t) => calendar.parse(t)
  }

  /** `new OrderData(data)`. */
  function NewOrder(input: OrderInput, calendar: Calendar): (r: Order)
    ensures r.date == ParseDate(input.date, calendar)
    ensures r.state == input.state
    ensures DefaultsToZero(input.dinerGrandTotal, r.dinerGrandTotal)
    ensures input.lineItems.Some? ==> r.lineItems == input.lineItems.value
    ensures input.lineItems.None? ==> r.lineItems == []
    ensures r.restaurantName != ""
    ensures TruthyText(input.restaurantName) ==> r.restaurantName == input.restaurantName.value
    ensures !TruthyText(input.restaurantName) ==> r.restaurantName == "Unknown"
    ensures DefaultsToZero(input.subtotal, r.subtotal)
    ensures DefaultsToZero(input.serviceFee, r.serviceFee)
    ensures DefaultsToZero(input.deliveryFee, r.deliveryFee)
    ensures DefaultsToZero(input.salesTax, r.salesTax)
    ensures DefaultsToZero(input.driverTip, r.driverTip)
    ensures DefaultsToZero(input.donation, r.donation)
    ensures DefaultsToZero(input.giftCardCredit, r.giftCards)
    ensures DefaultsToZero(input.promotionalDiscount, r.promotionalDiscount)
  {
    Order(
      ParseDate(input.date, calendar),
      input.state,
      OrZero(input.dinerGrandTotal),
      input.lineItems.GetOr([]),
      OrText(input.restaurantName, "Unknown"),
      OrZero(input.subtotal),
      OrZero(input.serviceFee),
      OrZero(input.deliveryFee),
      OrZero(input.salesTax),
      OrZero(input.driverTip),
      OrZero(input.donation),
      OrZero(input.giftCardCredit),
      OrZero(input.promotionalDiscount))
  }

  /** An order's own fields, handed back to the constructor (with a date text
      that the calendar reads as the order's date). */
  function AsInput(o: Order, dateText: Field<string>): OrderInput {
    OrderInput(dateText, o.state, Some(o.dinerGrandTotal), Some(o.lineItems), Some(o.restaurantName),
      Some(o.subtotal), Some(o.serviceFee), Some(o.deliveryFee), Some(o.salesTax),
      Some(o.driverTip), Some(o.donation), Some(o.giftCards), Some(o.promotionalDiscount))
  }

  /** The defaults are stable: constructing an order from a constructed order's
      fields gives the same order back. */
  lemma NewOrderIsFixpoint(input: OrderInput, calendar: Calendar, dateText: Field<string>)
    requires ParseDate(dateText, calendar) == ParseDate(input.date, calendar)
    ensures NewOrder(AsInput(NewOrder(input, calendar), dateText), calendar) == NewOrder(input, calendar)
  {
    var o := NewOrder(input, calendar);
    var again := NewOrder(AsInput(o, dateText), calendar);
    assert again.restaurantName == o.restaurantName;
  }

  // ---------------------------------------------------------------------
  // Grubhub's raw order (the `search_listing` result record)
  // ---------------------------------------------------------------------

  datatype GhRawOption = GhRawOption(name: Option<string>, price: Option<int>, quantity: Option<int>)
  datatype GhRawItem = GhRawItem(name: Field<string>, quantity: int, diner_total: Option<int>, options: Option<seq<GhRawOption>>)
  datatype GhLines = GhLines(line_items: Option<seq<GhRawItem>>)
  datatype GhFees = GhFees(service: Option<int>, delivery: Option<int>)
  datatype GhTotal = GhTotal(total: Option<int>)
  datatype GhTip = GhTip(amount: Option<int>)
  datatype GhCharges = GhCharges(
    diner_grand_total: Option<int>,
    lines: Option<GhLines>,
    diner_subtotal: Option<int>,
    fees: Option<GhFees>,
    taxes: Option<GhTotal>,
    tip: Option<GhTip>,
    donations: Option<GhTotal>)
  datatype GhRestaurant = GhRestaurant(name: Option<string>)
  /** A payment; the JSON key `type` is `kind` here. */
  datatype GhPayment = GhPayment(kind: Option<string>, amount: Field<int>)
  datatype GhPayments = GhPayments(payments: Option<seq<GhPayment>>)

  /** One Grubhub order as listed, plus the `fetchedAt` stamp the harvester adds. */
  datatype GrubhubRaw = GrubhubRaw(
    id: string,
    fetchedAt: Option<string>,
    time_placed: Field<string>,
    state: Option<string>,
    charges: Option<GhCharges>,
    restaurants: Option<seq<GhRestaurant>>,
    payments: Option<GhPayments>)

  /** The reduce in `getPaymentTotal`: None stands for NaN, which a matching
      payment without an amount makes of the running total (`total + undefined`);
      a `null` amount adds 0 (`total + null`). */
  function SumOfKind(ps: seq<GhPayment>, kind: string): Option<int> {
    if ps == [] then Some(0)
    else
      var rest := SumOfKind(ps[1..], kind);
      if ps[0].kind != Some(kind) then rest
      else match ps[0].amount
        case Missing => None
        case Null => rest
        case Present(a) => if rest.None? then None else Some(a + rest.value)
  }

  /** The amounts of the payments of one kind, in order. */
  function AmountsOfKind(ps: seq<GhPayment>, kind: string): seq<Field<int>> {
    if ps == [] then []
    else if ps[0].kind == Some(kind) then [ps[0].amount] + AmountsOfKind(ps[1..], kind)
    else AmountsOfKind(ps[1..], kind)
  }

  /** The sum of the present amounts; `null` counts as 0. */
  function SumAll(xs: seq<Field<int>>): int {
    if xs == [] then 0 else (if xs[0].Present? then xs[0].value else 0) + SumAll(xs[1..])
  }

  /** `getPaymentTotal(kind)`: no `payments` object gives 0, a `payments` object
      without its `payments` array throws, and `NaN || 0` is 0. */
  function PaymentTotal(payments: Option<GhPayments>, kind: string): (r: Result<int>)
    ensures payments.None? ==> r == Ok(0)
    ensures r.Err? <==> payments.Some? && payments.value.payments.None?
  {
    match payments
    case None => Ok(0)
    case Some(p) =>
      match p.payments
      case None => Err(TypeError)
      case Some(ps) => Ok(SumOfKind(ps, kind).GetOr(0))
  }

  /** With no matching amount missing, the total is the sum of the amounts of
      that kind, `null` ones counting 0; one matching payment without an amount
      makes it NaN. */
  lemma {:induction false} SumOfKindIsSum(ps: seq<GhPayment>, kind: string)
    ensures (forall a :: a in AmountsOfKind(ps, kind) ==> !a.Missing?) ==>
      SumOfKind(ps, kind) == Some(SumAll(AmountsOfKind(ps, kind)))
    ensures (exists a :: a in AmountsOfKind(ps, kind) && a.Missing?) ==> SumOfKind(ps, kind).None?
  {
    if ps != [] {
      SumOfKindIsSum(ps[1..], kind);
      var rest := AmountsOfKind(ps[1..], kind);
      if ps[0].kind == Some(kind) {
        var all := [ps[0].amount] + rest;
        assert AmountsOfKind(ps, kind) == all;
        assert all[0] == ps[0].amount && all[1..] == rest;
        assert SumAll(all) == (if ps[0].amount.Present? then ps[0].amount.value else 0) + SumAll(rest);
        if forall a :: a in all ==> !a.Missing? {
          assert ps[0].amount in all;
          assert forall a :: a in rest ==> a in all;
          assert SumOfKind(ps[1..], kind) == Some(SumAll(rest));
        }
        if exists a :: a in all && a.Missing? {
          var a :| a in all && a.Missing?;
          if a != ps[0].amount {
            assert a in rest;
          }
        }
      } else {
        assert AmountsOfKind(ps, kind) == rest;
      }
    }
  }

  lemma PaymentTotalIsSum(ps: seq<GhPayment>, kind: string)
    requires forall a :: a in AmountsOfKind(ps, kind) ==> !a.Missing?
    ensures PaymentTotal(Some(GhPayments(Some(ps))), kind) == Ok(SumAll(AmountsOfKind(ps, kind)))
  {
    SumOfKindIsSum(ps, kind);
  }

  lemma PaymentWithoutAmountGivesZero(ps: seq<GhPayment>, kind: string, i: nat)
    requires i < |ps| && ps[i].kind == Some(kind) && ps[i].amount.Missing?
    ensures PaymentTotal(Some(GhPayments(Some(ps))), kind) == Ok(0)
  {
    AmountsInclude(ps, kind, i);
    SumOfKindIsSum(ps, kind);
  }

  lemma {:induction false} AmountsInclude(ps: seq<GhPayment>, kind: string, i: nat)
    requires i < |ps| && ps[i].kind == Some(kind)
    ensures ps[i].amount in AmountsOfKind(ps, kind)
  {
    if i > 0 {
      AmountsInclude(ps[1..], kind, i - 1);
    }
  }

  /** One normalised Grubhub line item; `item.options.map` throws without options. */
  function GhLineItem(item: GhRawItem): (r: Result<LineItem>)
    ensures r.Err? <==> item.options.None?
    ensures r.Ok? ==> r.value.name == item.name && r.value.quantity == item.quantity
    ensures r.Ok? ==> DefaultsToZero(item.diner_total, r.value.originalItemPrice)
    ensures r.Ok? ==> r.value.pricing.Options? && |r.value.pricing.options| == |item.options.value|
    ensures r.Ok? ==> forall j :: 0 <= j < |item.options.value| ==>
      var o := r.value.pricing.options[j];
      var raw := item.options.value[j];
      o.name == raw.name && DefaultsToZero(raw.price, o.price) && o.quantity != 0 &&
      (raw.quantity.Some? && raw.quantity.value != 0 ==> o.quantity == raw.quantity.value) &&
      (!(raw.quantity.Some? && raw.quantity.value != 0) ==> o.quantity == 1)
  {
    match item.options
    case None => Err(TypeError)
    case Some(os) =>
      Ok(LineItem(item.name, item.quantity, OrZero(item.diner_total),
        Options(seq(|os|, j requires 0 <= j < |os| => ItemOption(os[j].name, OrZero(os[j].price), OrOne(os[j].quantity))))))
  }

  /** `line_items.map(…)`: one line item per raw item, in order, or the TypeError
      of the first item without options. */
  function GhLineItems(items: seq<GhRawItem>): (r: Result<seq<LineItem>>)
    ensures r.Ok? <==> forall i :: 0 <= i < |items| ==> items[i].options.Some?
    ensures r.Ok? ==> |r.value| == |items|
    ensures r.Ok? ==> forall i :: 0 <= i < |items| ==> Ok(r.value[i]) == GhLineItem(items[i])
  {
    if items == [] then Ok([])
    else
      match GhLineItem(items[0])
      case Err(e) => Err(e)
      case Ok(first) =>
        match GhLineItems(items[1..])
        case Err(e) => Err(e)
        case Ok(rest) =>
          assert forall i :: 1 <= i < |items| ==> items[i] == items[1..][i - 1];
          Ok([first] + rest)
  }

  /** `data.charges?.lines?.line_items.map(…) || []`. */
  function GhOrderItems(charges: Option<GhCharges>): Result<seq<LineItem>> {
    if charges.None? || charges.value.lines.None? then Ok([])
    else match charges.value.lines.value.line_items
      case None => Err(TypeError)
      case Some(items) => GhLineItems(items)
  }

  /** `data.restaurants?.[0]?.name || 'Unknown'`. */
  function FirstRestaurantName(restaurants: Option<seq<GhRestaurant>>): (r: string)
    ensures r != ""
    ensures restaurants.None? || restaurants.value == [] ==> r == "Unknown"
    ensures restaurants.Some? && restaurants.value != [] && TruthyText(restaurants.value[0].name) ==>
      r == restaurants.value[0].name.value
    ensures restaurants.Some? && restaurants.value != [] && !TruthyText(restaurants.value[0].name) ==>
      r == "Unknown"
  {
    if restaurants.None? || restaurants.value == [] then "Unknown"
    else OrText(restaurants.value[0].name, "Unknown")
  }

  /** `OrderData.fromGrubhub`. */
  function FromGrubhub(data: GrubhubRaw, calendar: Calendar): (r: Result<Order>)
    ensures r.Err? <==>
      (data.charges.Some? && data.charges.value.lines.Some? && GhOrderItems(data.charges).Err?) ||
      PaymentTotal(data.payments, "GIFT_CARD").Err?
    ensures r.Ok? ==> r.value.state == data.state
    ensures r.Ok? ==> r.value.date == ParseDate(data.time_placed, calendar)
    ensures r.Ok? ==> r.value.restaurantName == FirstRestaurantName(data.restaurants)
    ensures r.Ok? ==> r.value.lineItems == GhOrderItems(data.charges).value
    ensures r.Ok? ==> r.value.giftCards == PaymentTotal(data.payments, "GIFT_CARD").value
    ensures r.Ok? ==> r.value.promotionalDiscount == PaymentTotal(data.payments, "PROMO_CODE").value
    ensures r.Ok? && data.charges.None? ==>
      r.value.dinerGrandTotal == 0 && r.value.subtotal == 0 && r.value.lineItems == [] &&
      r.value.serviceFee == 0 && r.value.deliveryFee == 0 && r.value.salesTax == 0 &&
      r.value.driverTip == 0 && r.value.donation == 0
    ensures r.Ok? && data.charges.Some? ==>
      var c := data.charges.value;
      DefaultsToZero(c.diner_grand_total, r.value.dinerGrandTotal) &&
      DefaultsToZero(c.diner_subtotal, r.value.subtotal) &&
      (c.fees.Some? ==> DefaultsToZero(c.fees.value.service, r.value.serviceFee) &&
                        DefaultsToZero(c.fees.value.delivery, r.value.deliveryFee)) &&
      (c.taxes.Some? ==> DefaultsToZero(c.taxes.value.total, r.value.salesTax)) &&
      (c.tip.Some? ==> DefaultsToZero(c.tip.value.amount, r.value.driverTip)) &&
      (c.donations.Some? ==> DefaultsToZero(c.donations.value.total, r.value.donation)) &&
      (c.fees.None? ==> r.value.serviceFee == 0 && r.value.deliveryFee == 0) &&
      (c.taxes.None? ==> r.value.salesTax == 0) &&
      (c.tip.None? ==> r.value.driverTip == 0) &&
      (c.donations.None? ==> r.value.donation == 0)
  {
    var items := GhOrderItems(data.charges);
    if items.Err? then Err(items.error)
    else if data.payments.Some? && data.payments.value.payments.None? then Err(TypeError)
    else
      var gift := PaymentTotal(data.payments, "GIFT_CARD").value;
      var promo := PaymentTotal(data.payments, "PROMO_CODE").value;
      var c := data.charges;
      Ok(NewOrder(OrderInput(
        data.time_placed,
        data.state,
        Some(if c.None? then 0 else OrZero(c.value.diner_grand_total)),
        Some(items.value),
        Some(FirstRestaurantName(data.restaurants)),
        Some(if c.None? then 0 else OrZero(c.value.diner_subtotal)),
        Some(if c.None? || c.value.fees.None? then 0 else OrZero(c.value.fees.value.service)),
        Some(if c.None? || c.value.fees.None? then 0 else OrZero(c.value.fees.value.delivery)),
        Some(if c.None? || c.value.taxes.None? then 0 else OrZero(c.value.taxes.value.total)),
        Some(if c.None? || c.value.tip.None? then 0 else OrZero(c.value.tip.value.amount)),
        Some(if c.None? || c.value.donations.None? then 0 else OrZero(c.value.donations.value.total)),
        Some(gift),
        Some(promo)), calendar))
  }

  // ---------------------------------------------------------------------
  // DoorDash's raw order
  // ---------------------------------------------------------------------

  datatype DdMoney = DdMoney(unitAmount: Option<int>)
  datatype DdReceiptLine = DdReceiptLine(chargeId: Option<string>, finalMoney: Option<DdMoney>)
  datatype DdReceipt = DdReceipt(lineItems: Option<seq<DdReceiptLine>>)
  datatype DdRawItem = DdRawItem(name: Field<string>, quantity: int, originalItemPrice: Option<int>, orderItemExtras: Option<seq<ItemExtra>>)
  datatype DdSubOrder = DdSubOrder(items: Option<seq<DdRawItem>>)
  datatype DdStore = DdStore(name: Option<string>)

  /** One DoorDash order as `fromDoorDash` reads it. */
  datatype DoorDashRaw = DoorDashRaw(
    orderUuid: Option<string>,
    cancelledAt: Option<string>,
    createdAt: Field<string>,
    orderReceiptData: Option<DdReceipt>,
    orders: Option<seq<DdSubOrder>>,
    grandTotal: Option<DdMoney>,
    store: Option<DdStore>)

  /** `lineItems.find(item => item.chargeId === chargeId)`, as an index. */
  function FindCharge(lines: seq<DdReceiptLine>, chargeId: string): (r: Option<nat>)
    ensures r.Some? ==> r.value < |lines| && lines[r.value].chargeId == Some(chargeId)
    ensures r.Some? ==> forall j :: 0 <= j < r.value ==> lines[j].chargeId != Some(chargeId)
    ensures r.None? ==> forall j :: 0 <= j < |lines| ==> lines[j].chargeId != Some(chargeId)
  {
    if lines == [] then None
    else if lines[0].chargeId == Some(chargeId) then Some(0)
    else match FindCharge(lines[1..], chargeId)
      case None => None
      case Some(k) => Some(k + 1)
  }

  /** `getAmountByChargeId`: the final amount of the first receipt line with
      that charge id, or 0. */
  function ChargeAmount(lines: seq<DdReceiptLine>, chargeId: string): int {
    match FindCharge(lines, chargeId)
    case None => 0
    case Some(i) =>
      if lines[i].finalMoney.None? then 0 else OrZero(lines[i].finalMoney.value.unitAmount)
  }

  /** Only the first line with a charge id counts: later lines with the same id,
      and anything after it, never change the amount. */
  lemma ChargeAmountFirstMatch(lines: seq<DdReceiptLine>, chargeId: string, i: nat, more: seq<DdReceiptLine>)
    requires i < |lines| && lines[i].chargeId == Some(chargeId)
    ensures ChargeAmount(lines + more, chargeId) == ChargeAmount(lines, chargeId)
    ensures ChargeAmount(lines, chargeId) != 0 ==>
      exists k :: 0 <= k <= i && lines[k].chargeId == Some(chargeId) &&
        lines[k].finalMoney.Some? && lines[k].finalMoney.value.unitAmount.Some? &&
        ChargeAmount(lines, chargeId) == lines[k].finalMoney.value.unitAmount.value
  {
    var k := FindCharge(lines, chargeId);
    var k2 := FindCharge(lines + more, chargeId);
    assert (lines + more)[k.value] == lines[k.value];
    assert k2 == k;
  }

  /** One normalised DoorDash line item: the name and quantity as given, the
      price after `|| 0`, and the extras after `|| []` (an array, even an
      empty one, is truthy, so only a missing list becomes `[]`). */
  function DdLineItem(item: DdRawItem): (r: LineItem)
    ensures r.name == item.name && r.quantity == item.quantity
    ensures DefaultsToZero(item.originalItemPrice, r.originalItemPrice)
    ensures r.pricing.Extras?
    ensures item.orderItemExtras.Some? ==> r.pricing.orderItemExtras == item.orderItemExtras.value
    ensures item.orderItemExtras.None? ==> r.pricing.orderItemExtras == []
  {
    LineItem(item.name, item.quantity, OrZero(item.originalItemPrice), Extras(item.orderItemExtras.GetOr([])))
  }

  predicate AllHaveItems(os: seq<DdSubOrder>) {
    forall i :: 0 <= i < |os| ==> os[i].items.Some?
  }

  /** The raw items of all sub-orders, in order (a reference definition). */
  function ItemsInOrder(os: seq<DdSubOrder>): seq<DdRawItem>
    requires AllHaveItems(os)
  {
    if os == [] then [] else os[0].items.value + ItemsInOrder(os[1..])
  }

  function MapDd(items: seq<DdRawItem>): (r: seq<LineItem>)
    ensures |r| == |items| && forall i :: 0 <= i < |items| ==> r[i] == DdLineItem(items[i])
  {
    seq(|items|, i requires 0 <= i < |items| => DdLineItem(items[i]))
  }

  /** `data.orders.reduce((acc, order) => acc.concat(order.items.map(…)), [])`,
      a left fold; a sub-order without `items` throws. */
  function FlattenFrom(acc: seq<LineItem>, os: seq<DdSubOrder>): Result<seq<LineItem>>
    decreases |os|
  {
    if os == [] then Ok(acc)
    else match os[0].items
      case None => Err(TypeError)
      case Some(items) => FlattenFrom(acc + MapDd(items), os[1..])
  }

  /** The fold flattens the items of every sub-order, in order, with nothing
      lost or reordered; it throws exactly when some sub-order has no items. */
  lemma {:induction false} FlattenFromIsConcat(acc: seq<LineItem>, os: seq<DdSubOrder>)
    ensures FlattenFrom(acc, os).Ok? <==> AllHaveItems(os)
    ensures AllHaveItems(os) ==> FlattenFrom(acc, os) == Ok(acc + MapDd(ItemsInOrder(os)))
    decreases |os|
  {
    if os != [] {
      assert forall i :: 0 <= i < |os[1..]| ==> os[1..][i] == os[i + 1];
      match os[0].items
      case None =>
      case Some(first) =>
        var acc' := acc + MapDd(first);
        FlattenFromIsConcat(acc', os[1..]);
        assert FlattenFrom(acc, os) == FlattenFrom(acc', os[1..]);
        assert AllHaveItems(os) <==> AllHaveItems(os[1..]);
        if AllHaveItems(os) {
          var tail := ItemsInOrder(os[1..]);
          assert ItemsInOrder(os) == first + tail;
          assert MapDd(first + tail) == MapDd(first) + MapDd(tail);
          assert acc' + MapDd(tail) == acc + MapDd(first + tail);
        }
    } else {
      assert acc + MapDd([]) == acc;
    }
  }

  /** `data.orders?.reduce(…) || []`. */
  function DdOrderItems(orders: Option<seq<DdSubOrder>>): Result<seq<LineItem>> {
    match orders
    case None => Ok([])
    case Some(os) => FlattenFrom([], os)
  }

  /** `OrderData.fromDoorDash`. */
  function FromDoorDash(data: DoorDashRaw, calendar: Calendar): (r: Result<Order>)
    ensures r.Err? <==> data.orders.Some? && !AllHaveItems(data.orders.value)
    ensures r.Ok? ==> (r.value.state == Some("CANCELLED") <==> TruthyText(data.cancelledAt))
    ensures r.Ok? ==> (r.value.state == Some("COMPLETED") <==> !TruthyText(data.cancelledAt))
    ensures r.Ok? ==> r.value.date == ParseDate(data.createdAt, calendar)
    ensures r.Ok? && data.grandTotal.Some? ==> DefaultsToZero(data.grandTotal.value.unitAmount, r.value.dinerGrandTotal)
    ensures r.Ok? && data.grandTotal.None? ==> r.value.dinerGrandTotal == 0
    ensures r.Ok? && data.orders.None? ==> r.value.lineItems == []
    ensures r.Ok? && data.orders.Some? ==> r.value.lineItems == MapDd(ItemsInOrder(data.orders.value))
    ensures r.Ok? && data.store.Some? && TruthyText(data.store.value.name) ==>
      r.value.restaurantName == data.store.value.name.value
    ensures r.Ok? && (data.store.None? || !TruthyText(data.store.value.name)) ==>
      r.value.restaurantName == "Unknown"
    ensures r.Ok? ==> r.value.donation == 0
    ensures r.Ok? && (data.orderReceiptData.None? || data.orderReceiptData.value.lineItems.None?) ==>
      r.value.subtotal == 0 && r.value.serviceFee == 0 && r.value.deliveryFee == 0 &&
      r.value.salesTax == 0 && r.value.driverTip == 0 && r.value.promotionalDiscount == 0 &&
      r.value.giftCards == 0
  {
    var state := if TruthyText(data.cancelledAt) then "CANCELLED" else "COMPLETED";
    var lines := if data.orderReceiptData.None? then [] else data.orderReceiptData.value.lineItems.GetOr([]);
    var items := DdOrderItems(data.orders);
    FlattenFromIsConcat([], data.orders.GetOr([]));
    if items.Err? then Err(items.error)
    else
      Ok(NewOrder(OrderInput(
        data.createdAt,
        Some(state),
        Some(if data.grandTotal.None? then 0 else OrZero(data.grandTotal.value.unitAmount)),
        Some(items.value),
        Some(if data.store.None? then "Unknown" else OrText(data.store.value.name, "Unknown")),
        Some(ChargeAmount(lines, "SUBTOTAL")),
        Some(ChargeAmount(lines, "SERVICE_FEE")),
        Some(ChargeAmount(lines, "DELIVERY_FEE")),
        Some(ChargeAmount(lines, "TAX")),
        Some(ChargeAmount(lines, "TIP")),
        None,
        Some(ChargeAmount(lines, "CREDITS")),
        Some(ChargeAmount(lines, "PROMOTION_DISCOUNT"))), calendar))
  }

  /** Each DoorDash fee is the final amount of the first receipt line with its
      charge id (or 0 without one). */
  lemma FromDoorDashFees(data: DoorDashRaw, calendar: Calendar, lines: seq<DdReceiptLine>)
    requires data.orderReceiptData == Some(DdReceipt(Some(lines)))
    requires FromDoorDash(data, calendar).Ok?
    ensures var o := FromDoorDash(data, calendar).value;
      o.subtotal == ChargeAmount(lines, "SUBTOTAL") &&
      o.serviceFee == ChargeAmount(lines, "SERVICE_FEE") &&
      o.deliveryFee == ChargeAmount(lines, "DELIVERY_FEE") &&
      o.salesTax == ChargeAmount(lines, "TAX") &&
      o.driverTip == ChargeAmount(lines, "TIP") &&
      o.promotionalDiscount == ChargeAmount(lines, "PROMOTION_DISCOUNT") &&
      o.giftCards == ChargeAmount(lines, "CREDITS")
  {
  }
}
