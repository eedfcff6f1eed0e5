/** The order service (services/order-service/app.py): an in-memory list of
    orders with conjunctive filtered listing, lookup, create-time validation
    against the product service, a status state machine, cancellation and
    statistics. The two product-service calls per item are oracles; money is
    integer cents; uuid generation and the clock are parameters. */
module OrderService {
  import opened Common

  // ---------------------------------------------------------------------
  // Orders and their statuses
  // ---------------------------------------------------------------------

  /** One order line: `productId` and `quantity` come from the request,
      `price` and `name` are filled in from the product service. */
  datatype Item = Item(productId: Option<string>, quantity: Option<int>, price: Option<int>, name: Option<string>)

  datatype Order = Order(id: string, userId: string, items: seq<Item>, totalAmount: int, status: string,
                         createdAt: string, shippingAddress: Json, paymentMethod: string,
                         updatedAt: Option<string>, cancelledAt: Option<string>)

  const AllowedStatuses: seq<string> := ["pending", "confirmed", "processing", "shipped", "delivered", "cancelled"]

  const InvalidStatusMessage :=
    "Invalid status. Allowed: ['pending', 'confirmed', 'processing', 'shipped', 'delivered', 'cancelled']"

  function HasId(id: string): Order -> bool {
    (o: Order) => o.id == id
  }

  /** Index of the first order with this id, or -1 (`next(o for o in orders if ...)`). */
  function FindOrder(os: seq<Order>, id: string): int {
    IndexWhere(os, HasId(id))
  }

  /** GET /orders/<id>: the first order with that id, or 404. */
  function GetOrder(os: seq<Order>, id: string): (r: Reply<Order>)
    ensures r.Err? <==> forall j :: 0 <= j < |os| ==> os[j].id != id
    ensures r.Err? ==> r == Error(404, "Order not found")
    ensures r.Ok? ==> r.status == 200 && r.value.id == id
    ensures r.Ok? ==> exists i :: 0 <= i < |os| && os[i] == r.value && forall j :: 0 <= j < i ==> os[j].id != id
  {
    var i := FindOrder(os, id);
    if i == -1 then Error(404, "Order not found") else Ok(200, os[i])
  }

  // ---------------------------------------------------------------------
  // Listing: GET /orders?status=&userId=
  // ---------------------------------------------------------------------

  function WithStatus(status: string): Order -> bool {
    (o: Order) => o.status == status
  }

  function ForUser(userId: string): Order -> bool {
    (o: Order) => o.userId == userId
  }

  /** An order passes both supplied filters; an absent or empty one does not restrict. */
  predicate OrderMatches(o: Order, status: Option<string>, userId: Option<string>) {
    (!Given(status) || o.status == status.value) && (!Given(userId) || o.userId == userId.value)
  }

  function OrderMatcher(status: Option<string>, userId: Option<string>): Order -> bool {
    (o: Order) => OrderMatches(o, status, userId)
  }

  datatype OrderListing = OrderListing(total: nat, orders: seq<Order>)

  /** The two comprehensions applied in turn equal one filter by their conjunction. */
  function ListOrders(os: seq<Order>, status: Option<string>, userId: Option<string>): (r: OrderListing)
    ensures r.orders == Filter(os, OrderMatcher(status, userId))
    ensures r.total == |r.orders|
  {
    var s1 := if Given(status) then Filter(os, WithStatus(status.value)) else os;
    var s2 := if Given(userId) then Filter(s1, ForUser(userId.value)) else s1;
    ListOrderSteps(os, status, userId, s1, s2);
    OrderListing(|s2|, s2)
  }

  lemma ListOrderSteps(os: seq<Order>, status: Option<string>, userId: Option<string>,
                       s1: seq<Order>, s2: seq<Order>)
    requires s1 == if Given(status) then Filter(os, WithStatus(status.value)) else os
    requires s2 == if Given(userId) then Filter(s1, ForUser(userId.value)) else s1
    ensures s2 == Filter(os, OrderMatcher(status, userId))
  {
    var first: Order -> bool := (o: Order) => !Given(status) || o.status == status.value;
    if Given(status) {
      FilterSame(os, WithStatus(status.value), first);
    } else {
      FilterKeepAll(os, first);
    }
    if Given(userId) {
      FilterTwice(os, first, ForUser(userId.value), OrderMatcher(status, userId));
    } else {
      FilterSame(os, first, OrderMatcher(status, userId));
    }
  }

  /** An order is listed exactly when it is stored and matches both filters. */
  lemma ListedOrders(os: seq<Order>, status: Option<string>, userId: Option<string>, o: Order)
    ensures o in ListOrders(os, status, userId).orders <==> o in os && OrderMatches(o, status, userId)
  {
    if o in os && OrderMatches(o, status, userId) {
      FilterComplete(os, OrderMatcher(status, userId), o);
    }
  }

  // ---------------------------------------------------------------------
  // Create: item validation against the product service
  // ---------------------------------------------------------------------

  /** How POST /products/{id}/check-availability went. */
  datatype CheckReply =
    | CheckFailed(message: string)                        // requests raised
    | CheckNotFound                                       // status 404
    | Checked(available: bool, currentStock: Option<int>) // any other status, its JSON fields

  /** How GET /products/{id} went. */
  datatype PriceReply =
    | PriceFailed(message: string)         // requests raised
    | PriceFound(price: int, name: string) // status 200
    | PriceMissing                         // any other status

  datatype ItemResult = ItemPriced(item: Item, amount: int) | ItemRefused(status: int, body: Json)

  function FailedBody(message: string): Json {
    JObj([("error", JStr("Failed to validate products")), ("details", JStr(message))])
  }

  /** One turn of the validation loop for one item: 400 without a productId;
      the availability call's failure (503), 404 or "not available" (400)
      refuses the item; then the price call's failure refuses it (503), a 200
      prices it, and any other status leaves it unpriced at amount 0. */
  function PriceItem(item: Item, check: (string, int) -> CheckReply, lookup: string -> PriceReply): (r: ItemResult)
    ensures !Given(item.productId) ==> r == ItemRefused(400, ErrorBody("productId required for all items"))
    ensures Given(item.productId) ==>
              var pid := item.productId.value;
              var quantity := GetOr(item.quantity, 1);
              && (check(pid, quantity).CheckFailed? ==>
                    r == ItemRefused(503, FailedBody(check(pid, quantity).message)))
              && (check(pid, quantity).CheckNotFound? ==>
                    r == ItemRefused(404, ErrorBody("Product " + pid + " not found")))
              && (check(pid, quantity).Checked? && !check(pid, quantity).available ==>
                    r == ItemRefused(400, JObj([("error", JStr("Product " + pid + " not available")),
                                                ("requested", JNum(quantity)),
                                                ("available", JNum(GetOr(check(pid, quantity).currentStock, 0)))])))
              && (check(pid, quantity).Checked? && check(pid, quantity).available ==>
                    match lookup(pid)
                    case PriceFailed(message) => r == ItemRefused(503, FailedBody(message))
                    case PriceMissing => r == ItemPriced(item, 0)
                    case PriceFound(price, name) =>
                      r == ItemPriced(item.(price := Some(price), name := Some(name)), price * quantity))
    ensures r.ItemPriced? ==> Given(item.productId) && r.item.productId == item.productId
                              && r.item.quantity == item.quantity
  {
    if !Given(item.productId) then ItemRefused(400, ErrorBody("productId required for all items"))
    else
      var pid := item.productId.value;
      var quantity := GetOr(item.quantity, 1);
      match check(pid, quantity)
      case CheckFailed(message) => ItemRefused(503, FailedBody(message))
      case CheckNotFound => ItemRefused(404, ErrorBody("Product " + pid + " not found"))
      case Checked(available, stock) =>
        if !available then
          ItemRefused(400, JObj([("error", JStr("Product " + pid + " not available")),
                                 ("requested", JNum(quantity)),
                                 ("available", JNum(GetOr(stock, 0)))]))
        else
          match lookup(pid)
          case PriceFailed(message) => ItemRefused(503, FailedBody(message))
          case PriceMissing => ItemPriced(item, 0)
          case PriceFound(price, name) =>
            ItemPriced(item.(price := Some(price), name := Some(name)), price * quantity)
  }

  /** The amounts of the items, each as `PriceItem` computes it (0 for a refused one), summed. */
  function AmountSum(items: seq<Item>, check: (string, int) -> CheckReply, lookup: string -> PriceReply): int {
    if items == [] then 0
    else
      var last := PriceItem(items[|items| - 1], check, lookup);
      AmountSum(items[..|items| - 1], check, lookup) + (if last.ItemPriced? then last.amount else 0)
  }

  datatype Pricing = Priced(items: seq<Item>, total: int) | Refused(status: int, body: Json)

  /** The validation loop over all items: the reply is the first refused
      item's; otherwise every item is processed by `PriceItem` and the amounts summed. */
  function PriceAll(items: seq<Item>, check: (string, int) -> CheckReply, lookup: string -> PriceReply): (r: Pricing)
    ensures r.Priced? <==> forall i :: 0 <= i < |items| ==> PriceItem(items[i], check, lookup).ItemPriced?
    ensures r.Priced? ==> |r.items| == |items| && r.total == AmountSum(items, check, lookup)
    ensures r.Priced? ==> forall i :: 0 <= i < |items| ==> r.items[i] == PriceItem(items[i], check, lookup).item
    ensures r.Priced? ==> forall i :: 0 <= i < |items| ==>
              Given(items[i].productId) && r.items[i].productId == items[i].productId
              && r.items[i].quantity == items[i].quantity
    ensures r.Refused? ==>
              exists k :: 0 <= k < |items| && PriceItem(items[k], check, lookup) == ItemRefused(r.status, r.body)
                          && forall j :: 0 <= j < k ==> PriceItem(items[j], check, lookup).ItemPriced?
  {
    if items == [] then Priced([], 0)
    else
      var init := items[..|items| - 1];
      assert forall i :: 0 <= i < |init| ==> init[i] == items[i];
      match PriceAll(init, check, lookup)
      case Refused(status, body) => Refused(status, body)
      case Priced(done, total) =>
        match PriceItem(items[|items| - 1], check, lookup)
        case ItemRefused(status, body) => Refused(status, body)
        case ItemPriced(item, amount) => Priced(done + [item], total + amount)
  }

  /** A refusal on a prefix is the refusal of the whole: later items are never examined. */
  lemma {:induction false} RefusedPrefix(items: seq<Item>, n: nat, check: (string, int) -> CheckReply,
                                         lookup: string -> PriceReply)
    requires n <= |items| && PriceAll(items[..n], check, lookup).Refused?
    ensures PriceAll(items, check, lookup) == PriceAll(items[..n], check, lookup)
    decreases |items|
  {
    if n < |items| {
      var init := items[..|items| - 1];
      assert init[..n] == items[..n];
      RefusedPrefix(init, n, check, lookup);
    } else {
      assert items[..n] == items;
    }
  }

  /** The `for item in items` loop of `create_order`. */
  method PriceItems(items: seq<Item>, check: (string, int) -> CheckReply, lookup: string -> PriceReply)
    returns (r: Pricing)
    ensures r == PriceAll(items, check, lookup)
  {
    var done: seq<Item> := [];
    var total := 0;
    var i := 0;
    while i < |items|
      invariant 0 <= i <= |items|
      invariant PriceAll(items[..i], check, lookup) == Priced(done, total)
    {
      assert items[..i + 1][..i] == items[..i];
      match PriceItem(items[i], check, lookup) {
        case ItemRefused(status, body) =>
          RefusedPrefix(items, i + 1, check, lookup);
          return Refused(status, body);
        case ItemPriced(item, amount) =>
          done := done + [item];
          total := total + amount;
      }
      i := i + 1;
    }
    assert items[..i] == items;
    r := Priced(done, total);
  }

  /** A create body; `None` is an absent key. */
  datatype NewOrder = NewOrder(userId: Option<string>, items: Option<seq<Item>>,
                               shippingAddress: Option<Json>, paymentMethod: Option<string>)

  /** `not data or not data.get('userId') or not data.get('items')` */
  predicate MissingFields(data: Option<NewOrder>) {
    data.None? || !Given(data.value.userId) || data.value.items.None? || data.value.items.value == []
  }

  // ---------------------------------------------------------------------
  // Statistics: GET /orders/stats
  // ---------------------------------------------------------------------

  /** The `status_counts` dictionary built by the stats loop over `os`: every
      status that occurs is a key, and each key counts between 1 and |os| orders. */
  function Tally(os: seq<Order>): (m: map<string, nat>)
    ensures forall i :: 0 <= i < |os| ==> os[i].status in m
    ensures forall s :: s in m ==> 1 <= m[s] <= |os|
  {
    if os == [] then map[]
    else
      assert forall i :: 0 <= i < |os| - 1 ==> os[..|os| - 1][i] == os[i];
      var counts := Tally(os[..|os| - 1]);
      var status := os[|os| - 1].status;
      counts[status := (if status in counts then counts[status] else 0) + 1]
  }

  /** Counting one more order: the tally of the first i + 1 orders is the
      tally of the first i with the next order's status incremented. */
  lemma TallyExtend(os: seq<Order>, i: nat)
    requires i < |os|
    ensures var counts := Tally(os[..i]);
            var status := os[i].status;
            Tally(os[..i + 1]) == counts[status := (if status in counts then counts[status] else 0) + 1]
  {
    assert os[..i + 1][..i] == os[..i];
  }

  /** Every key of the breakdown is the status of some order. */
  lemma {:induction false} TallyKeysOccur(os: seq<Order>)
    ensures forall s :: s in Tally(os) ==> exists i :: 0 <= i < |os| && os[i].status == s
  {
    if os != [] {
      var init := os[..|os| - 1];
      TallyKeysOccur(init);
      forall s | s in Tally(os) ensures exists i :: 0 <= i < |os| && os[i].status == s {
        if s == os[|os| - 1].status {
          assert os[|os| - 1].status == s;
        } else {
          var last := os[|os| - 1].status;
          assert Tally(os) == Tally(init)[last := (if last in Tally(init) then Tally(init)[last] else 0) + 1];
          var i :| 0 <= i < |init| && init[i].status == s;
          assert os[i] == init[i];
        }
      }
    }
  }

  /** Number of orders with this status. */
  function CountStatus(os: seq<Order>, status: string): nat {
    |Filter(os, WithStatus(status))|
  }

  /** Each breakdown entry is the number of orders with that status, and a
      status appears in the breakdown exactly when some order has it. */
  lemma {:induction false} TallyCounts(os: seq<Order>, status: string)
    ensures status in Tally(os) <==> CountStatus(os, status) > 0
    ensures status in Tally(os) ==> Tally(os)[status] == CountStatus(os, status)
  {
    if os != [] {
      var init := os[..|os| - 1];
      TallyCounts(init, status);
      assert os == init + [os[|os| - 1]];
      FilterAppend(init, [os[|os| - 1]], WithStatus(status));
    }
  }

  /** Sum of the values of a map, key order immaterial. */
  ghost function MapSum(m: map<string, nat>): int
    decreases |m|
  {
    if m == map[] then 0
    else
      var k :| k in m;
      m[k] + MapSum(m - {k})
  }

  lemma {:induction false} MapSumRemove(m: map<string, nat>, k: string)
    requires k in m
    ensures MapSum(m) == m[k] + MapSum(m - {k})
    decreases |m|
  {
    var j :| j in m && MapSum(m) == m[j] + MapSum(m - {j});
    if j != k {
      MapSumRemove(m - {j}, k);
      MapSumRemove(m - {k}, j);
      assert m - {j} - {k} == m - {k} - {j};
    }
  }

  /** Incrementing one entry (or adding it with 1) raises the sum by one. */
  lemma MapSumIncrement(m: map<string, nat>, k: string)
    ensures MapSum(m[k := (if k in m then m[k] else 0) + 1]) == MapSum(m) + 1
  {
    var m' := m[k := (if k in m then m[k] else 0) + 1];
    MapSumRemove(m', k);
    assert m' - {k} == m - {k};
    if k in m {
      MapSumRemove(m, k);
    } else {
      assert m - {k} == m;
    }
  }

  /** The breakdown counts sum to `totalOrders`. */
  lemma {:induction false} TallySum(os: seq<Order>)
    ensures MapSum(Tally(os)) == |os|
  {
    if os != [] {
      TallySum(os[..|os| - 1]);
      MapSumIncrement(Tally(os[..|os| - 1]), os[|os| - 1].status);
    }
  }

  /** `m` maps each status present to the number of orders with it, and a
      status absent from `m` occurs in no order. */
  ghost predicate CountsStatuses(os: seq<Order>, m: map<string, nat>) {
    && (forall k :: k in m ==> m[k] == CountStatus(os, k))
    && (forall k :: k !in m ==> CountStatus(os, k) == 0)
  }

  /** What the stats reply promises of its breakdown `m`, the tally of `os`:
      its counts are the per-status counts and sum to the number of orders,
      and when every order's status is allowed so is every key. */
  lemma BreakdownFacts(os: seq<Order>, m: map<string, nat>)
    requires m == Tally(os)
    ensures MapSum(m) == |os|
    ensures CountsStatuses(os, m)
    ensures (forall o :: o in os ==> o.status in AllowedStatuses) ==> forall k :: k in m ==> k in AllowedStatuses
  {
    TallyKeysOccur(os);
    TallySum(os);
    forall k {
      TallyCounts(os, k);
    }
  }

  /** `sum(o['totalAmount'] for o in orders if o['status'] not in ['cancelled'])`:
      cancelled orders add nothing, and with no negative amounts no other order lowers it. */
  function Revenue(os: seq<Order>): (r: int)
    ensures (forall i :: 0 <= i < |os| ==> os[i].status == "cancelled") ==> r == 0
    ensures (forall i :: 0 <= i < |os| ==> os[i].totalAmount >= 0) ==> 0 <= r
    ensures (forall i :: 0 <= i < |os| ==> os[i].totalAmount >= 0) ==>
              forall i :: 0 <= i < |os| && os[i].status != "cancelled" ==> os[i].totalAmount <= r
  {
    if os == [] then 0
    else Revenue(os[..|os| - 1]) + (if os[|os| - 1].status == "cancelled" then 0 else os[|os| - 1].totalAmount)
  }

  /** Cancelling an order removes exactly its amount from the revenue (nothing
      if it was already cancelled). */
  lemma {:induction false} RevenueOfCancel(os: seq<Order>, i: nat, now: string)
    requires i < |os|
    ensures Revenue(os[i := os[i].(status := "cancelled", cancelledAt := Some(now))])
            == Revenue(os) - (if os[i].status == "cancelled" then 0 else os[i].totalAmount)
  {
    var os' := os[i := os[i].(status := "cancelled", cancelledAt := Some(now))];
    var n := |os| - 1;
    if i < n {
      assert os'[..n] == os[..n][i := os[i].(status := "cancelled", cancelledAt := Some(now))];
      RevenueOfCancel(os[..n], i, now);
    } else {
      assert os'[..n] == os[..n];
    }
  }

  datatype OrderStats = OrderStats(totalOrders: nat, totalRevenue: int, statusBreakdown: map<string, nat>, timestamp: string)

  // ---------------------------------------------------------------------
  // The store
  // ---------------------------------------------------------------------

  class OrderStore {
    /** The module-level `orders` list. */
    var orders: seq<Order>

    /** Every stored order has one of the six allowed statuses. */
    ghost predicate Valid()
      reads this
    {
      forall o :: o in orders ==> o.status in AllowedStatuses
    }

    constructor ()
      ensures Valid() && orders == []
    {
      orders := [];
    }

    /** POST /orders: 400 on missing fields, the first refused item's reply on
        a validation failure (nothing appended in either case); otherwise one
        pending order appended and returned with 201. */
    method Create(data: Option<NewOrder>, check: (string, int) -> CheckReply, lookup: string -> PriceReply,
                  id: string, now: string) returns (r: Reply<Order>)
      requires Valid()
      modifies this
      ensures Valid()
      ensures MissingFields(data) ==> r == Error(400, "userId and items are required") && orders == old(orders)
      ensures !MissingFields(data) ==>
                var body := data.value;
                match PriceAll(body.items.value, check, lookup)
                case Refused(status, err) => r == Err(status, err) && orders == old(orders)
                case Priced(items, total) =>
                  && r == Ok(201, Order(id, body.userId.value, items, total, "pending", now,
                                        GetOr(body.shippingAddress, JObj([])), GetOr(body.paymentMethod, "card"),
                                        None, None))
                  && orders == old(orders) + [r.value]
    {
      if MissingFields(data) {
        return Error(400, "userId and items are required");
      }
      var body := data.value;
      var pricing := PriceItems(body.items.value, check, lookup);
      match pricing {
        case Refused(status, err) =>
          r := Err(status, err);
        case Priced(items, total) =>
          var order := Order(id, body.userId.value, items, total, "pending", now,
                             GetOr(body.shippingAddress, JObj([])), GetOr(body.paymentMethod, "card"), None, None);
          orders := orders + [order];
          r := Ok(201, order);
      }
    }

    /** PUT /orders/<id>: 404 for an unknown id; a status outside the six
        allowed values gives 400 and changes nothing; a valid one is stored;
        an absent one leaves the order as it was. */
    method Update(id: string, newStatus: Option<string>, now: string) returns (r: Reply<Order>)
      requires Valid()
      modifies this
      ensures Valid()
      ensures var i := FindOrder(old(orders), id);
              && (i == -1 ==> r == Error(404, "Order not found") && orders == old(orders))
              && (i != -1 && Given(newStatus) && newStatus.value !in AllowedStatuses ==>
                    r == Error(400, InvalidStatusMessage) && orders == old(orders))
              && (i != -1 && Given(newStatus) && newStatus.value in AllowedStatuses ==>
                    && orders == old(orders)[i := old(orders)[i].(status := newStatus.value, updatedAt := Some(now))]
                    && r == Ok(200, orders[i]))
              && (i != -1 && !Given(newStatus) ==> r == Ok(200, old(orders)[i]) && orders == old(orders))
    {
      var i := FindOrder(orders, id);
      if i == -1 {
        return Error(404, "Order not found");
      }
      if Given(newStatus) && newStatus.value !in AllowedStatuses {
        return Error(400, InvalidStatusMessage);
      }
      if Given(newStatus) {
        orders := orders[i := orders[i].(status := newStatus.value, updatedAt := Some(now))];
      }
      r := Ok(200, orders[i]);
    }

    /** DELETE /orders/<id>: 404 for an unknown id, 400 with nothing changed
        for a shipped or delivered order; otherwise the status becomes
        'cancelled', also when it already was. */
    method Cancel(id: string, now: string) returns (r: Reply<Order>)
      requires Valid()
      modifies this
      ensures Valid()
      ensures var i := FindOrder(old(orders), id);
              && (i == -1 ==> r == Error(404, "Order not found") && orders == old(orders))
              && (i != -1 && old(orders)[i].status in {"shipped", "delivered"} ==>
                    r == Error(400, "Cannot cancel shipped or delivered orders") && orders == old(orders))
              && (i != -1 && old(orders)[i].status !in {"shipped", "delivered"} ==>
                    && orders == old(orders)[i := old(orders)[i].(status := "cancelled", cancelledAt := Some(now))]
                    && r == Ok(200, orders[i]))
    {
      var i := FindOrder(orders, id);
      if i == -1 {
        return Error(404, "Order not found");
      }
      if orders[i].status in {"shipped", "delivered"} {
        return Error(400, "Cannot cancel shipped or delivered orders");
      }
      orders := orders[i := orders[i].(status := "cancelled", cancelledAt := Some(now))];
      r := Ok(200, orders[i]);
    }

    /** GET /orders/stats: the count loop builds exactly the tally of the
        stored statuses; revenue leaves cancelled orders out. */
    method Stats(now: string) returns (s: OrderStats)
      ensures s.totalOrders == |orders|
      ensures s.totalRevenue == Revenue(orders)
      ensures s.statusBreakdown == Tally(orders)
      ensures Valid() ==> forall k :: k in s.statusBreakdown ==> k in AllowedStatuses
      ensures MapSum(s.statusBreakdown) == s.totalOrders
      ensures CountsStatuses(orders, s.statusBreakdown)
    {
      var counts: map<string, nat> := map[];
      var i := 0;
      while i < |orders|
        invariant 0 <= i <= |orders|
        invariant counts == Tally(orders[..i])
      {
        TallyExtend(orders, i);
        var status := orders[i].status;
        counts := counts[status := (if status in counts then counts[status] else 0) + 1];
        i := i + 1;
      }
      assert orders[..i] == orders;
      BreakdownFacts(orders, counts);
      s := OrderStats(|orders|, Revenue(orders), counts, now);
    }
  }
}
