/** The dashboard's arithmetic over the normalised orders: the date-range
    filter, `calculateTotal`, the KPI totals, the month, restaurant and dish
    dictionaries, the top-ten lists and the time-of-day buckets. Money is in
    integer cents; an order's date is its (day, hour, month) key, or None when
    it did not parse. */
module Dashboard {
  import opened Wrappers
  import opened OrderData
  import opened Groups

  const Completed: string := "COMPLETED"

  /** The picker's `[start, end]` as calendar days; None is a cleared bound. */
  datatype DateRange = DateRange(start: Option<int>, end: Option<int>)

  /** The filter's test. An order whose date did not parse is an invalid
      `dayjs` date, which fails every comparison, so it only passes when both
      bounds are cleared. */
  predicate Shown(o: Order, range: DateRange) {
    o.state == Some(Completed) &&
    (range.start.None? || (o.date.Some? && o.date.value.day >= range.start.value)) &&
    (range.end.None? || (o.date.Some? && o.date.value.day <= range.end.value))
  }

  /** `orders.filter(…)`. */
  function FilterOrders(orders: seq<Order>, range: DateRange): (r: seq<Order>)
    ensures |r| <= |orders|
    ensures forall i :: 0 <= i < |r| ==> Shown(r[i], range)
  {
    if orders == [] then []
    else
      var rest := FilterOrders(orders[..|orders| - 1], range);
      var last := orders[|orders| - 1];
      if Shown(last, range) then rest + [last] else rest
  }

  /** The filter keeps exactly the completed orders within the range. */
  lemma {:induction false} FilterKeepsExactly(orders: seq<Order>, range: DateRange, o: Order)
    ensures o in FilterOrders(orders, range) <==> o in orders && Shown(o, range)
  {
    if orders != [] {
      var n := |orders| - 1;
      FilterKeepsExactly(orders[..n], range, o);
      assert orders == orders[..n] + [orders[n]];
    }
  }

  /** The filter keeps the orders in their order: filtering a concatenation
      concatenates the filtered parts. */
  lemma {:induction false} FilterConcat(a: seq<Order>, b: seq<Order>, range: DateRange)
    ensures FilterOrders(a + b, range) == FilterOrders(a, range) + FilterOrders(b, range)
    decreases |b|
  {
    if b == [] {
      assert a + b == a;
    } else {
      var n := |b| - 1;
      FilterConcat(a, b[..n], range);
      assert (a + b)[..|a + b| - 1] == a + b[..n];
    }
  }

  // ---------------------------------------------------------------------
  // calculateTotal
  // ---------------------------------------------------------------------

  /** The prices of a DoorDash extra's chosen options, each counted once. */
  function ExtraOptionsTotal(opts: seq<ExtraOption>): int {
    if opts == [] then 0 else ExtraOptionsTotal(opts[..|opts| - 1]) + opts[|opts| - 1].price
  }

  function ExtrasTotal(extras: seq<ItemExtra>): int {
    if extras == [] then 0
    else ExtrasTotal(extras[..|extras| - 1]) + ExtraOptionsTotal(extras[|extras| - 1].orderItemExtraOptions)
  }

  /** Grubhub options: each price times its quantity. */
  function OptionsTotal(options: seq<ItemOption>): int {
    if options == [] then 0
    else OptionsTotal(options[..|options| - 1]) + options[|options| - 1].price * options[|options| - 1].quantity
  }

  /** One unit of an item: its extras or options, plus its own price. */
  function UnitPrice(item: LineItem): int {
    match item.pricing
    case Extras(extras) => ExtrasTotal(extras) + item.originalItemPrice
    case Options(options) => OptionsTotal(options) + item.originalItemPrice
  }

  function ItemCost(item: LineItem): int {
    UnitPrice(item) * item.quantity
  }

  function ItemsCost(items: seq<LineItem>): int {
    if items == [] then 0 else ItemsCost(items[..|items| - 1]) + ItemCost(items[|items| - 1])
  }

  /** `calculateTotal(order)`: the grand total when it is positive, otherwise
      what the items add up to. */
  function CalculateTotal(o: Order): (t: int)
    ensures o.dinerGrandTotal > 0 ==> t == o.dinerGrandTotal
    ensures o.dinerGrandTotal <= 0 ==> t == ItemsCost(o.lineItems)
  {
    if o.dinerGrandTotal > 0 then o.dinerGrandTotal else ItemsCost(o.lineItems)
  }

  /** The item sum does not depend on how the items are split up: the cost of
      a concatenation (a DoorDash order's flattened sub-orders) is the sum of
      the parts' costs. */
  lemma {:induction false} ItemsCostConcat(a: seq<LineItem>, b: seq<LineItem>)
    ensures ItemsCost(a + b) == ItemsCost(a) + ItemsCost(b)
    decreases |b|
  {
    if b == [] {
      assert a + b == a;
    } else {
      var n := |b| - 1;
      ItemsCostConcat(a, b[..n]);
      assert (a + b)[..|a + b| - 1] == a + b[..n];
    }
  }

  predicate NoNegativeOptions(options: seq<ItemOption>) {
    forall j :: 0 <= j < |options| ==> options[j].price >= 0 && options[j].quantity >= 0
  }

  predicate NoNegativeExtras(extras: seq<ItemExtra>) {
    forall j, m :: 0 <= j < |extras| && 0 <= m < |extras[j].orderItemExtraOptions| ==>
      extras[j].orderItemExtraOptions[m].price >= 0
  }

  /** No price or quantity anywhere in the items is negative. */
  predicate NoNegativeAmounts(items: seq<LineItem>) {
    forall i :: 0 <= i < |items| ==>
      items[i].quantity >= 0 && items[i].originalItemPrice >= 0 &&
      (items[i].pricing.Options? ==> NoNegativeOptions(items[i].pricing.options)) &&
      (items[i].pricing.Extras? ==> NoNegativeExtras(items[i].pricing.orderItemExtras))
  }

  /** Without negative amounts an order never costs less than nothing. */
  lemma {:induction false} TotalNotNegative(o: Order)
    requires NoNegativeAmounts(o.lineItems)
    ensures CalculateTotal(o) >= 0
  {
    if o.dinerGrandTotal <= 0 {
      ItemsCostNotNegative(o.lineItems);
    }
  }

  lemma {:induction false} ItemsCostNotNegative(items: seq<LineItem>)
    requires NoNegativeAmounts(items)
    ensures ItemsCost(items) >= 0
    decreases |items|
  {
    if items != [] {
      var n := |items| - 1;
      assert NoNegativeAmounts(items[..n]) by {
        forall i | 0 <= i < n ensures items[..n][i] == items[i] { }
      }
      ItemsCostNotNegative(items[..n]);
      var item := items[n];
      match item.pricing
      case Extras(extras) => ExtrasNotNegative(extras);
      case Options(options) => OptionsNotNegative(options);
    }
  }

  lemma {:induction false} OptionsNotNegative(options: seq<ItemOption>)
    requires NoNegativeOptions(options)
    ensures OptionsTotal(options) >= 0
    decreases |options|
  {
    if options != [] {
      var n := |options| - 1;
      assert NoNegativeOptions(options[..n]) by {
        forall j | 0 <= j < n ensures options[..n][j] == options[j] { }
      }
      OptionsNotNegative(options[..n]);
    }
  }

  lemma {:induction false} ExtrasNotNegative(extras: seq<ItemExtra>)
    requires NoNegativeExtras(extras)
    ensures ExtrasTotal(extras) >= 0
    decreases |extras|
  {
    if extras != [] {
      var n := |extras| - 1;
      assert NoNegativeExtras(extras[..n]) by {
        forall j | 0 <= j < n ensures extras[..n][j] == extras[j] { }
      }
      ExtrasNotNegative(extras[..n]);
      ExtraOptionsNotNegative(extras[n].orderItemExtraOptions);
    }
  }

  lemma {:induction false} ExtraOptionsNotNegative(opts: seq<ExtraOption>)
    requires forall m :: 0 <= m < |opts| ==> opts[m].price >= 0
    ensures ExtraOptionsTotal(opts) >= 0
    decreases |opts|
  {
    if opts != [] {
      var n := |opts| - 1;
      assert forall m :: 0 <= m < n ==> opts[..n][m] == opts[m];
      ExtraOptionsNotNegative(opts[..n]);
    }
  }

  // ---------------------------------------------------------------------
  // The KPI totals
  // ---------------------------------------------------------------------

  /** `totalMoneySpent`. */
  function MoneySpent(orders: seq<Order>): int {
    if orders == [] then 0 else MoneySpent(orders[..|orders| - 1]) + CalculateTotal(orders[|orders| - 1])
  }

  function ItemQuantities(items: seq<LineItem>): int {
    if items == [] then 0 else ItemQuantities(items[..|items| - 1]) + items[|items| - 1].quantity
  }

  /** `totalItemsOrdered`. */
  function ItemsOrdered(orders: seq<Order>): int {
    if orders == [] then 0 else ItemsOrdered(orders[..|orders| - 1]) + ItemQuantities(orders[|orders| - 1].lineItems)
  }

  /** `new Set(orders.map(order => order.restaurantName))`. */
  function RestaurantNames(orders: seq<Order>): set<string> {
    set i | 0 <= i < |orders| :: orders[i].restaurantName
  }

  /** The figures of the KPI cards. */
  datatype Kpis = Kpis(totalMoneySpent: int, totalOrders: nat, totalRestaurants: nat, totalItemsOrdered: int)

  function ComputeKpis(orders: seq<Order>): Kpis {
    Kpis(MoneySpent(orders), |orders|, |RestaurantNames(orders)|, ItemsOrdered(orders))
  }

  /** There are never more restaurants than orders, and some restaurant
      whenever there is an order. */
  lemma {:induction false} RestaurantsAtMostOrders(orders: seq<Order>)
    ensures ComputeKpis(orders).totalRestaurants <= ComputeKpis(orders).totalOrders
    ensures orders != [] ==> ComputeKpis(orders).totalRestaurants >= 1
    decreases |orders|
  {
    if orders != [] {
      var n := |orders| - 1;
      RestaurantsAtMostOrders(orders[..n]);
      RestaurantNamesSnoc(orders);
    }
  }

  lemma RestaurantNamesSnoc(orders: seq<Order>)
    requires orders != []
    ensures RestaurantNames(orders) == RestaurantNames(orders[..|orders| - 1]) + {orders[|orders| - 1].restaurantName}
  {
    var n := |orders| - 1;
    forall x | x in RestaurantNames(orders) ensures x in RestaurantNames(orders[..n]) + {orders[n].restaurantName} {
      var i :| 0 <= i < |orders| && orders[i].restaurantName == x;
      if i < n { assert orders[..n][i] == orders[i]; }
    }
    forall x | x in RestaurantNames(orders[..n]) ensures x in RestaurantNames(orders) {
      var i :| 0 <= i < n && orders[..n][i].restaurantName == x;
      assert orders[..n][i] == orders[i];
    }
  }

  // ---------------------------------------------------------------------
  // The month and restaurant dictionaries
  // ---------------------------------------------------------------------

  /** The `'MMMM YYYY'` label of the order's date; None stands for the
      `'Invalid Date'` label every unparsed date shares. */
  function MonthOf(o: Order): Option<int> {
    if o.date.Some? then Some(o.date.value.month) else None
  }

  function RestaurantOf(o: Order): string {
    o.restaurantName
  }

  /** What each order adds to a per-order dictionary: its total and a count
      of one. */
  function OrderEntries<K>(orders: seq<Order>, keyOf: Order -> K): (es: seq<Entry<K, ()>>)
    ensures |es| == |orders|
    ensures forall i :: 0 <= i < |orders| ==> es[i] == Entry(keyOf(orders[i]), CalculateTotal(orders[i]), 1, ())
  {
    seq(|orders|, i requires 0 <= i < |orders| => Entry(keyOf(orders[i]), CalculateTotal(orders[i]), 1, ()))
  }

  /** The `chartData` and `restaurantData` reducers: `keyOf` is the month
      label or the restaurant name. */
  method GroupOrders<K(==, !new)>(orders: seq<Order>, keyOf: Order -> K) returns (groups: seq<Group<K, ()>>)
    ensures groups == GroupsOf(OrderEntries(orders, keyOf))
  {
    groups := [];
    for i := 0 to |orders|
      invariant groups == GroupsOf(OrderEntries(orders[..i], keyOf))
    {
      assert OrderEntries(orders[..i + 1], keyOf)[..i] == OrderEntries(orders[..i], keyOf);
      groups := Add(groups, Entry(keyOf(orders[i]), CalculateTotal(orders[i]), 1, ()));
    }
    assert orders[..|orders|] == orders;
  }

  /** The groups' counts add up to the number of orders and their money to
      `totalMoneySpent`, whatever the key. */
  lemma {:induction false} OrderGroupsConserve<K(!new)>(orders: seq<Order>, keyOf: Order -> K)
    ensures SumCounts(GroupsOf(OrderEntries(orders, keyOf))) == |orders|
    ensures SumMoney(GroupsOf(OrderEntries(orders, keyOf))) == MoneySpent(orders)
  {
    OrderEntrySums(orders, keyOf);
  }

  lemma {:induction false} OrderEntrySums<K(!new)>(orders: seq<Order>, keyOf: Order -> K)
    ensures EntryCounts(OrderEntries(orders, keyOf)) == |orders|
    ensures EntryMoney(OrderEntries(orders, keyOf)) == MoneySpent(orders)
    decreases |orders|
  {
    if orders != [] {
      var n := |orders| - 1;
      OrderEntrySums(orders[..n], keyOf);
      assert OrderEntries(orders, keyOf)[..n] == OrderEntries(orders[..n], keyOf);
    }
  }

  /** The month groups' counts and money are `totalOrders` and
      `totalMoneySpent`. */
  lemma MonthGroupsConserve(orders: seq<Order>)
    ensures SumCounts(GroupsOf(OrderEntries(orders, MonthOf))) == ComputeKpis(orders).totalOrders
    ensures SumMoney(GroupsOf(OrderEntries(orders, MonthOf))) == ComputeKpis(orders).totalMoneySpent
  {
    OrderGroupsConserve(orders, MonthOf);
  }

  /** One restaurant group per distinct name: as many groups as
      `totalRestaurants`, with counts adding up to `totalOrders`. */
  lemma RestaurantGroupsMatchKpis(orders: seq<Order>)
    ensures |GroupsOf(OrderEntries(orders, RestaurantOf))| == ComputeKpis(orders).totalRestaurants
    ensures SumCounts(GroupsOf(OrderEntries(orders, RestaurantOf))) == ComputeKpis(orders).totalOrders
  {
    var gs := GroupsOf(OrderEntries(orders, RestaurantOf));
    OrderGroupsConserve(orders, RestaurantOf);
    RestaurantKeys(orders);
    DistinctLabelsCount(gs);
  }

  lemma {:induction false} RestaurantKeys(orders: seq<Order>)
    ensures Keys(OrderEntries(orders, RestaurantOf)) == RestaurantNames(orders)
    decreases |orders|
  {
    if orders != [] {
      var n := |orders| - 1;
      RestaurantKeys(orders[..n]);
      assert OrderEntries(orders, RestaurantOf)[..n] == OrderEntries(orders[..n], RestaurantOf);
      RestaurantNamesSnoc(orders);
    }
  }

  // ---------------------------------------------------------------------
  // The dish dictionary
  // ---------------------------------------------------------------------

  /** `acc[dishName]`: a missing name is the property key `"undefined"`, a
      `null` one the key `"null"`. */
  function DishKey(name: Field<string>): string {
    match name
    case Missing => "undefined"
    case Null => "null"
    case Present(s) => s
  }

  /** What an order's items add to the dish dictionary: each item's cost and
      quantity, and the order's restaurant for a new dish. */
  function ItemEntries(items: seq<LineItem>, restaurant: string): (es: seq<Entry<string, string>>)
    ensures |es| == |items|
    ensures forall j :: 0 <= j < |items| ==>
      es[j] == Entry(DishKey(items[j].name), ItemCost(items[j]), items[j].quantity, restaurant)
  {
    seq(|items|, j requires 0 <= j < |items| => Entry(DishKey(items[j].name), ItemCost(items[j]), items[j].quantity, restaurant))
  }

  function DishEntries(orders: seq<Order>): seq<Entry<string, string>> {
    if orders == [] then []
    else DishEntries(orders[..|orders| - 1]) + ItemEntries(orders[|orders| - 1].lineItems, orders[|orders| - 1].restaurantName)
  }

  /** The `dishData` reducer with its inner `forEach` over the items. */
  method DishData(orders: seq<Order>) returns (groups: seq<Group<string, string>>)
    ensures groups == GroupsOf(DishEntries(orders))
  {
    groups := [];
    for i := 0 to |orders|
      invariant groups == GroupsOf(DishEntries(orders[..i]))
    {
      groups := AddItems(groups, DishEntries(orders[..i]), orders[i].lineItems, orders[i].restaurantName);
      DishEntriesSnoc(orders, i);
    }
    assert orders[..|orders|] == orders;
  }

  /** The inner `order.lineItems.forEach`: each item is added to the dictionary
      built from the entries `done`. */
  method AddItems(groups: seq<Group<string, string>>, ghost done: seq<Entry<string, string>>,
                  items: seq<LineItem>, restaurant: string)
    returns (result: seq<Group<string, string>>)
    requires groups == GroupsOf(done)
    ensures result == GroupsOf(done + ItemEntries(items, restaurant))
  {
    result := groups;
    assert done + ItemEntries(items[..0], restaurant) == done;
    for j := 0 to |items|
      invariant result == GroupsOf(done + ItemEntries(items[..j], restaurant))
    {
      var item := items[j];
      var entry := Entry(DishKey(item.name), ItemCost(item), item.quantity, restaurant);
      ItemEntriesSnoc(done, items, j, restaurant);
      GroupsOfSnoc(done + ItemEntries(items[..j], restaurant), entry);
      result := Add(result, entry);
    }
    assert items[..|items|] == items;
  }

  lemma ItemEntriesSnoc(done: seq<Entry<string, string>>, items: seq<LineItem>, j: nat, restaurant: string)
    requires j < |items|
    ensures done + ItemEntries(items[..j + 1], restaurant) ==
      (done + ItemEntries(items[..j], restaurant)) + [Entry(DishKey(items[j].name), ItemCost(items[j]), items[j].quantity, restaurant)]
  {
    assert ItemEntries(items[..j + 1], restaurant) ==
      ItemEntries(items[..j], restaurant) + [Entry(DishKey(items[j].name), ItemCost(items[j]), items[j].quantity, restaurant)];
  }

  lemma DishEntriesSnoc(orders: seq<Order>, i: nat)
    requires i < |orders|
    ensures DishEntries(orders[..i + 1]) ==
      DishEntries(orders[..i]) + ItemEntries(orders[i].lineItems, orders[i].restaurantName)
  {
    assert orders[..i + 1][..i] == orders[..i];
  }

  /** The quantity ordered of dish `k`, over all orders. */
  function DishQuantity(orders: seq<Order>, k: string): int {
    if orders == [] then 0
    else DishQuantity(orders[..|orders| - 1], k) + ItemsQuantityFor(orders[|orders| - 1].lineItems, k)
  }

  function ItemsQuantityFor(items: seq<LineItem>, k: string): int {
    if items == [] then 0
    else ItemsQuantityFor(items[..|items| - 1], k) + (if DishKey(items[|items| - 1].name) == k then items[|items| - 1].quantity else 0)
  }

  predicate HasDish(o: Order, k: string) {
    exists j :: 0 <= j < |o.lineItems| && DishKey(o.lineItems[j].name) == k
  }

  /** The restaurant of the first order with an item named `k`. */
  function FirstRestaurantWith(orders: seq<Order>, k: string): Option<string> {
    if orders == [] then None
    else
      var earlier := FirstRestaurantWith(orders[..|orders| - 1], k);
      if earlier.Some? then earlier
      else if HasDish(orders[|orders| - 1], k) then Some(orders[|orders| - 1].restaurantName)
      else None
  }

  /** A dish's group counts the quantities of all items with its name and
      names the restaurant of the first order in which the dish appears; a
      dish nobody ordered has no group. */
  lemma DishGroup(orders: seq<Order>, k: string)
    ensures FirstRestaurantWith(orders, k).None? ==> Find(GroupsOf(DishEntries(orders)), k).None?
    ensures FirstRestaurantWith(orders, k).Some? ==>
      Find(GroupsOf(DishEntries(orders)), k).Some? &&
      Find(GroupsOf(DishEntries(orders)), k).value.orderCount == DishQuantity(orders, k) &&
      Find(GroupsOf(DishEntries(orders)), k).value.extra == FirstRestaurantWith(orders, k).value
  {
    DishEntriesFor(orders, k);
    GroupOfKey(DishEntries(orders), k);
  }

  lemma {:induction false} DishEntriesFor(orders: seq<Order>, k: string)
    ensures k in Keys(DishEntries(orders)) <==> FirstRestaurantWith(orders, k).Some?
    ensures CountFor(DishEntries(orders), k) == DishQuantity(orders, k)
    ensures k in Keys(DishEntries(orders)) ==> FirstExtra(DishEntries(orders), k) == FirstRestaurantWith(orders, k).value
    decreases |orders|
  {
    if orders != [] {
      var n := |orders| - 1;
      var last := orders[n];
      var a, b := DishEntries(orders[..n]), ItemEntries(last.lineItems, last.restaurantName);
      assert DishEntries(orders) == a + b;
      DishEntriesFor(orders[..n], k);
      ItemEntriesFor(last.lineItems, last.restaurantName, k);
      assert k in Keys(b) <==> HasDish(last, k);
      KeysConcat(a, b);
      CountForConcat(a, b, k);
      assert DishQuantity(orders, k) == DishQuantity(orders[..n], k) + ItemsQuantityFor(last.lineItems, k);
      if k in Keys(a) || k in Keys(b) {
        FirstExtraConcat(a, b, k);
      }
    }
  }

  lemma ItemEntriesFor(items: seq<LineItem>, restaurant: string, k: string)
    ensures k in Keys(ItemEntries(items, restaurant)) <==> exists j :: 0 <= j < |items| && DishKey(items[j].name) == k
    ensures CountFor(ItemEntries(items, restaurant), k) == ItemsQuantityFor(items, k)
    ensures k in Keys(ItemEntries(items, restaurant)) ==> FirstExtra(ItemEntries(items, restaurant), k) == restaurant
  {
    ItemKeysFor(items, restaurant, k);
    ItemCountFor(items, restaurant, k);
  }

  lemma {:induction false} ItemCountFor(items: seq<LineItem>, restaurant: string, k: string)
    ensures CountFor(ItemEntries(items, restaurant), k) == ItemsQuantityFor(items, k)
    decreases |items|
  {
    if items != [] {
      var n := |items| - 1;
      assert ItemEntries(items, restaurant)[..n] == ItemEntries(items[..n], restaurant);
      ItemCountFor(items[..n], restaurant, k);
    }
  }

  lemma {:induction false} ItemKeysFor(items: seq<LineItem>, restaurant: string, k: string)
    ensures k in Keys(ItemEntries(items, restaurant)) <==> exists j :: 0 <= j < |items| && DishKey(items[j].name) == k
    decreases |items|
  {
    if items != [] {
      var n := |items| - 1;
      assert ItemEntries(items, restaurant)[..n] == ItemEntries(items[..n], restaurant);
      ItemKeysFor(items[..n], restaurant, k);
      if exists j :: 0 <= j < |items| && DishKey(items[j].name) == k {
        var j :| 0 <= j < |items| && DishKey(items[j].name) == k;
        if j < n { assert items[..n][j] == items[j]; }
      }
      if exists j :: 0 <= j < n && DishKey(items[..n][j].name) == k {
        var j :| 0 <= j < n && DishKey(items[..n][j].name) == k;
        assert items[..n][j] == items[j];
      }
    }
  }

  /** The dish counts add up to `totalItemsOrdered`. */
  lemma {:induction false} DishCountsConserve(orders: seq<Order>)
    ensures SumCounts(GroupsOf(DishEntries(orders))) == ComputeKpis(orders).totalItemsOrdered
    decreases |orders|
  {
    DishEntryCounts(orders);
  }

  lemma {:induction false} DishEntryCounts(orders: seq<Order>)
    ensures EntryCounts(DishEntries(orders)) == ItemsOrdered(orders)
    decreases |orders|
  {
    if orders != [] {
      var n := |orders| - 1;
      var last := orders[n];
      DishEntryCounts(orders[..n]);
      EntryCountsConcat(DishEntries(orders[..n]), ItemEntries(last.lineItems, last.restaurantName));
      ItemEntryCounts(last.lineItems, last.restaurantName);
    }
  }

  lemma {:induction false} ItemEntryCounts(items: seq<LineItem>, restaurant: string)
    ensures EntryCounts(ItemEntries(items, restaurant)) == ItemQuantities(items)
    decreases |items|
  {
    if items != [] {
      var n := |items| - 1;
      assert ItemEntries(items, restaurant)[..n] == ItemEntries(items[..n], restaurant);
      ItemEntryCounts(items[..n], restaurant);
    }
  }

  // ---------------------------------------------------------------------
  // orderTimings
  // ---------------------------------------------------------------------

  datatype Timings = Timings(morning: int, afternoon: int, evening: int)

  /** One step of the `orderTimings` reducer. An unparsed date has a `NaN`
      hour and lands in no bucket, like hours 0 to 4. */
  function Tally(t: Timings, o: Order): Timings {
    if o.date.None? then t
    else
      var hour := o.date.value.hour;
      if 5 <= hour < 12 then t.(morning := t.morning + 1)
      else if 12 <= hour < 17 then t.(afternoon := t.afternoon + 1)
      else if 17 <= hour < 24 then t.(evening := t.evening + 1)
      else t
  }

  function TimingsOf(orders: seq<Order>): Timings {
    if orders == [] then Timings(0, 0, 0) else Tally(TimingsOf(orders[..|orders| - 1]), orders[|orders| - 1])
  }

  /** The `orderTimings` reducer over the filtered orders. */
  method OrderTimings(orders: seq<Order>) returns (t: Timings)
    ensures t == TimingsOf(orders)
  {
    t := Timings(0, 0, 0);
    for i := 0 to |orders|
      invariant t == TimingsOf(orders[..i])
    {
      assert orders[..i + 1][..i] == orders[..i];
      var order := orders[i];
      if order.date.Some? {
        var hour := order.date.value.hour;
        if hour >= 5 && hour < 12 {
          t := t.(morning := t.morning + 1);
        } else if hour >= 12 && hour < 17 {
          t := t.(afternoon := t.afternoon + 1);
        } else if hour >= 17 && hour < 24 {
          t := t.(evening := t.evening + 1);
        }
      }
    }
    assert orders[..|orders|] == orders;
  }

  /** Whether an order falls in one of the three buckets. */
  predicate Timed(o: Order) {
    o.date.Some? && 5 <= o.date.value.hour < 24
  }

  function TimedCount(orders: seq<Order>): nat {
    if orders == [] then 0 else TimedCount(orders[..|orders| - 1]) + (if Timed(orders[|orders| - 1]) then 1 else 0)
  }

  /** The buckets count each order with an hour from 5 to 23 exactly once,
      so they add up to at most `totalOrders`, and to exactly that when every
      order has such an hour. */
  lemma {:induction false} TimingsCountTimed(orders: seq<Order>)
    ensures var t := TimingsOf(orders);
      t.morning >= 0 && t.afternoon >= 0 && t.evening >= 0 &&
      t.morning + t.afternoon + t.evening == TimedCount(orders) &&
      TimedCount(orders) <= |orders| &&
      (TimedCount(orders) == |orders| <==> forall i :: 0 <= i < |orders| ==> Timed(orders[i]))
    decreases |orders|
  {
    if orders != [] {
      var n := |orders| - 1;
      TimingsCountTimed(orders[..n]);
      if forall i :: 0 <= i < n ==> Timed(orders[..n][i]) {
        assert forall i :: 0 <= i < n ==> orders[..n][i] == orders[i];
      } else {
        var i :| 0 <= i < n && !Timed(orders[..n][i]);
        assert orders[..n][i] == orders[i];
      }
    }
  }
}
