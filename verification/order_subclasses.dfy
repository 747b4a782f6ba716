/** The two `OrderData` subclasses: the base fields come from the `OrderData`
    constructor, the platform's own fields get `||` defaults. Strings default to
    `''`, flags to `false`, objects to `{}` and lists to `[]`; a JSON object or
    list is always truthy, so only a missing one is replaced. */
module GrubhubOrderData {
  import opened Wrappers
  import opened OrderData

  /** The `data` object handed to `new GrubhubOrderData(data)`: the base keys
      plus Grubhub's own (snake_case on the wire). */
  datatype GrubhubOrderInput = GrubhubOrderInput(
    base: OrderInput,
    adjustments: Option<JsonObject>,
    brand: Option<string>,
    fraud: Option<bool>,
    local_when_for: Option<string>,
    start_time: Option<string>,
    time_placed: Option<string>)

  datatype GrubhubOrder = GrubhubOrder(
    base: Order,
    adjustments: JsonObject,
    brand: string,
    fraud: bool,
    localWhenFor: string,
    startTime: string,
    timePlaced: string)

  /** `new GrubhubOrderData(data)`. */
  function NewGrubhubOrder(data: GrubhubOrderInput, calendar: Calendar): (r: GrubhubOrder)
    ensures r.base == NewOrder(data.base, calendar)
    ensures data.adjustments.Some? ==> r.adjustments == data.adjustments.value
    ensures data.adjustments.None? ==> r.adjustments == EmptyObject
    ensures r.fraud <==> data.fraud == Some(true)
    ensures data.brand.Some? ==> r.brand == data.brand.value
    ensures data.brand.None? ==> r.brand == ""
    ensures data.local_when_for.Some? ==> r.localWhenFor == data.local_when_for.value
    ensures data.local_when_for.None? ==> r.localWhenFor == ""
    ensures data.start_time.Some? ==> r.startTime == data.start_time.value
    ensures data.start_time.None? ==> r.startTime == ""
    ensures data.time_placed.Some? ==> r.timePlaced == data.time_placed.value
    ensures data.time_placed.None? ==> r.timePlaced == ""
  {
    GrubhubOrder(
      NewOrder(data.base, calendar),
      data.adjustments.GetOr(EmptyObject),
      OrText(data.brand, ""),
      data.fraud.GetOr(false),
      OrText(data.local_when_for, ""),
      OrText(data.start_time, ""),
      OrText(data.time_placed, ""))
  }
}

module DoorDashOrderData {
  import opened Wrappers
  import opened OrderData

  /** The `data` object handed to `new DoorDashOrderData(data)`. */
  datatype DoorDashOrderInput = DoorDashOrderInput(
    base: OrderInput,
    bundleOrderInfo: Option<JsonObject>,
    cancellationPendingRefundInfo: Option<JsonObject>,
    cancelledAt: Option<string>,
    createdAt: Option<string>,
    deliveryAddress: Option<JsonObject>,
    deliveryUuid: Option<string>,
    fulfilledAt: Option<string>,
    fulfillmentType: Option<string>,
    grandTotal: Option<JsonObject>,
    isConsumerSubscriptionEligible: Option<bool>,
    isGift: Option<bool>,
    isGroup: Option<bool>,
    isMerchantShipping: Option<bool>,
    isPickup: Option<bool>,
    isReorderable: Option<bool>,
    likelyOosItems: Option<seq<JsonObject>>,
    orderUuid: Option<string>,
    orders: Option<seq<JsonObject>>,
    paymentCard: Option<JsonObject>,
    pollingInterval: Option<int>,
    recurringOrderDetails: Option<JsonObject>,
    shoppingProtocol: Option<string>,
    specialInstructions: Option<string>,
    store: Option<JsonObject>,
    submittedAt: Option<string>)

  /** A `DoorDashOrderData` instance; None stands for `null`. */
  datatype DoorDashOrder = DoorDashOrder(
    base: Order,
    bundleOrderInfo: Option<JsonObject>,
    cancellationPendingRefundInfo: JsonObject,
    cancelledAt: string,
    createdAt: string,
    deliveryAddress: JsonObject,
    deliveryUuid: string,
    fulfilledAt: Option<string>,
    fulfillmentType: string,
    grandTotal: JsonObject,
    isConsumerSubscriptionEligible: bool,
    isGift: bool,
    isGroup: bool,
    isMerchantShipping: bool,
    isPickup: bool,
    isReorderable: bool,
    likelyOosItems: seq<JsonObject>,
    orderUuid: string,
    orders: seq<JsonObject>,
    paymentCard: JsonObject,
    pollingInterval: int,
    recurringOrderDetails: Option<JsonObject>,
    shoppingProtocol: string,
    specialInstructions: string,
    store: JsonObject,
    submittedAt: string)

  /** A flag after `|| false`: true exactly when the input is `true`. */
  predicate FlagDefault(x: Option<bool>, v: bool) {
    v <==> x == Some(true)
  }

  /** A string after `|| ''`: the input when present, `''` when missing. */
  predicate TextDefault(x: Option<string>, v: string) {
    (x.Some? ==> v == x.value) && (x.None? ==> v == "")
  }

  /** An object after `|| {}`. */
  predicate ObjectDefault(x: Option<JsonObject>, v: JsonObject) {
    (x.Some? ==> v == x.value) && (x.None? ==> v == EmptyObject)
  }

  /** `new DoorDashOrderData(data)`. */
  function NewDoorDashOrder(data: DoorDashOrderInput, calendar: Calendar): (r: DoorDashOrder)
    ensures FlagDefault(data.isConsumerSubscriptionEligible, r.isConsumerSubscriptionEligible)
    ensures FlagDefault(data.isGift, r.isGift) && FlagDefault(data.isGroup, r.isGroup)
    ensures FlagDefault(data.isMerchantShipping, r.isMerchantShipping)
    ensures FlagDefault(data.isPickup, r.isPickup) && FlagDefault(data.isReorderable, r.isReorderable)
    ensures data.pollingInterval.Some? ==> r.pollingInterval == data.pollingInterval.value
    ensures data.pollingInterval.None? ==> r.pollingInterval == 0
    ensures TextDefault(data.cancelledAt, r.cancelledAt) && TextDefault(data.createdAt, r.createdAt)
    ensures TextDefault(data.deliveryUuid, r.deliveryUuid) && TextDefault(data.fulfillmentType, r.fulfillmentType)
    ensures TextDefault(data.orderUuid, r.orderUuid) && TextDefault(data.shoppingProtocol, r.shoppingProtocol)
    ensures TextDefault(data.specialInstructions, r.specialInstructions)
    ensures TextDefault(data.submittedAt, r.submittedAt)
    ensures data.orders.Some? ==> r.orders == data.orders.value
    ensures data.orders.None? ==> r.orders == []
    ensures data.likelyOosItems.Some? ==> r.likelyOosItems == data.likelyOosItems.value
    ensures data.likelyOosItems.None? ==> r.likelyOosItems == []
    ensures ObjectDefault(data.cancellationPendingRefundInfo, r.cancellationPendingRefundInfo)
    ensures ObjectDefault(data.deliveryAddress, r.deliveryAddress)
    ensures ObjectDefault(data.grandTotal, r.grandTotal)
    ensures ObjectDefault(data.paymentCard, r.paymentCard)
    ensures ObjectDefault(data.store, r.store)
    ensures r.bundleOrderInfo == data.bundleOrderInfo
    ensures r.recurringOrderDetails == data.recurringOrderDetails
    ensures r.fulfilledAt.Some? <==> TruthyText(data.fulfilledAt)
    ensures r.fulfilledAt.Some? ==> r.fulfilledAt == data.fulfilledAt
    ensures r.base == NewOrder(data.base, calendar)
  {
    DoorDashOrder(
      NewOrder(data.base, calendar),
      data.bundleOrderInfo,
      data.cancellationPendingRefundInfo.GetOr(EmptyObject),
      OrText(data.cancelledAt, ""),
      OrText(data.createdAt, ""),
      data.deliveryAddress.GetOr(EmptyObject),
      OrText(data.deliveryUuid, ""),
      if TruthyText(data.fulfilledAt) then data.fulfilledAt else None,
      OrText(data.fulfillmentType, ""),
      data.grandTotal.GetOr(EmptyObject),
      data.isConsumerSubscriptionEligible.GetOr(false),
      data.isGift.GetOr(false),
      data.isGroup.GetOr(false),
      data.isMerchantShipping.GetOr(false),
      data.isPickup.GetOr(false),
      data.isReorderable.GetOr(false),
      data.likelyOosItems.GetOr([]),
      OrText(data.orderUuid, ""),
      data.orders.GetOr([]),
      data.paymentCard.GetOr(EmptyObject),
      OrZero(data.pollingInterval),
      data.recurringOrderDetails,
      OrText(data.shoppingProtocol, ""),
      OrText(data.specialInstructions, ""),
      data.store.GetOr(EmptyObject),
      OrText(data.submittedAt, ""))
  }
}
