/**
 * The order engine: placing an order (POST /order), moving stock
 * (PATCH /plants/quantity/:id), setting an order's status
 * (PATCH /order/status/:id) and cancelling (DELETE /orders/:id).
 */
module Orders {
  import opened Wrappers
  import opened Collection
  import opened Records
  import opened Api
  import opened Access

  /** The stored order: the request's fields, the server's price, the new id and day. */
  function Priced(req: OrderRequest, plant: Plant, id: ObjectId, day: Day): Order {
    Order(id, req.plantId, req.customer, req.sellerEmail,
          req.quantity, req.quantity * plant.price, req.status, day)
  }

  /**
   * POST /order. `id` is the ObjectId the insert receives and `day` the day
   * it encodes. An unknown plant is a 400; otherwise the order is stored
   * at the catalog price and the customer and the seller are mailed.
   */
  function PlaceOrder(s: Store, cred: Credential, req: OrderRequest, id: ObjectId, day: Day): (r: Step)
    ensures r.next.users == s.users && r.next.plants == s.plants
    ensures Gate(s.users, cred, SignedIn).Failure? ==> r == Step(Denied401, s, [])
    ensures cred.Signed? && FindPlant(s.plants, req.plantId).None? ==>
      r == Step(Reply(BadRequest, Message(PLANT_NOT_FOUND_TEXT)), s, [])
    ensures cred.Signed? && FindPlant(s.plants, req.plantId).Some? ==>
      var plant := FindPlant(s.plants, req.plantId).value;
      r.response == Reply(Ok, OrderInserted(id)) &&
      |r.next.orders| == |s.orders| + 1 &&
      r.next.orders[..|s.orders|] == s.orders &&
      var o := r.next.orders[|s.orders|];
      o.id == id && o.day == day &&
      o.price == req.quantity * plant.price &&
      o.plantId == req.plantId && o.customer == req.customer &&
      o.sellerEmail == req.sellerEmail && o.quantity == req.quantity && o.status == req.status &&
      r.effects == [Mail(req.customer.email, ORDER_PLACED, OrderConfirmation(id)),
                    Mail(req.sellerEmail, ORDER_PLACED, NewOrderAlert(req.customer.name))]
  {
    match Gate(s.users, cred, SignedIn)
    case Failure(denied) => Step(denied, s, [])
    case Success(_) =>
      match FindPlant(s.plants, req.plantId)
      case None => Step(Reply(BadRequest, Message(PLANT_NOT_FOUND_TEXT)), s, [])
      case Some(plant) =>
        var order := Priced(req, plant, id, day);
        Step(Reply(Ok, OrderInserted(id)),
             s.(orders := s.orders + [order]),
             [Mail(req.customer.email, ORDER_PLACED, OrderConfirmation(id)),
              Mail(req.sellerEmail, ORDER_PLACED, NewOrderAlert(req.customer.name))])
  }

  /** The price the client declares never reaches the stored order. */
  lemma ClientPriceIgnored(s: Store, cred: Credential, req: OrderRequest, fake: int, id: ObjectId, day: Day)
    ensures PlaceOrder(s, cred, req, id, day) == PlaceOrder(s, cred, req.(price := fake), id, day)
  {
  }

  /** Placing an order with a fresh id keeps order ids unique. */
  lemma PlaceOrderKeepsIdsUnique(s: Store, cred: Credential, req: OrderRequest, id: ObjectId, day: Day)
    requires UniqueOrderIds(s.orders)
    requires forall i :: 0 <= i < |s.orders| ==> s.orders[i].id != id
    ensures UniqueOrderIds(PlaceOrder(s, cred, req, id, day).next.orders)
  {
  }

  /** The signed change `$inc` applies: minus the amount unless the body says "increase". */
  function Delta(amount: int, direction: string): int {
    if direction == INCREASE then amount else -amount
  }

  /**
   * The `$inc` on the first plant with `id`: only its stock moves, by `delta`,
   * and it stays the first plant with that id.
   */
  function Restock(plants: seq<Plant>, id: ObjectId, delta: int): (r: seq<Plant>)
    ensures |r| == |plants|
    ensures FindFirst(r, PlantIdIs(id)) == FindFirst(plants, PlantIdIs(id))
    ensures FindFirst(plants, PlantIdIs(id)).None? ==> r == plants
    ensures FindFirst(plants, PlantIdIs(id)).Some? ==>
      var i := FindFirst(plants, PlantIdIs(id)).value;
      r[i] == plants[i].(quantity := plants[i].quantity + delta) &&
      forall j :: 0 <= j < |plants| && j != i ==> r[j] == plants[j]
  {
    match FindFirst(plants, PlantIdIs(id))
    case None => plants
    case Some(i) =>
      var r := plants[i := plants[i].(quantity := plants[i].quantity + delta)];
      assert PlantIdIs(id)(r[i]);
      r
  }

  /**
   * PATCH /plants/quantity/:id. The first plant with that id has its stock
   * moved by the amount, without any check that it stays non-negative.
   */
  function AdjustStock(s: Store, cred: Credential, id: ObjectId, amount: int, direction: string): (r: Step)
    ensures r.effects == [] && r.next.users == s.users && r.next.orders == s.orders
    ensures Gate(s.users, cred, SignedIn).Failure? ==> r == Step(Denied401, s, [])
    ensures cred.Signed? && FindPlant(s.plants, id).None? ==>
      r == Step(Reply(Ok, UpdateResult(0)), s, [])
    ensures cred.Signed? && FindPlant(s.plants, id).Some? ==>
      var i := FindFirst(s.plants, PlantIdIs(id)).value;
      r.response == Reply(Ok, UpdateResult(1)) &&
      |r.next.plants| == |s.plants| && s.plants[i].id == id &&
      r.next.plants[i].quantity ==
        (if direction == INCREASE then s.plants[i].quantity + amount else s.plants[i].quantity - amount) &&
      r.next.plants[i] == s.plants[i].(quantity := r.next.plants[i].quantity) &&
      forall j :: 0 <= j < |s.plants| && j != i ==> r.next.plants[j] == s.plants[j]
  {
    match Gate(s.users, cred, SignedIn)
    case Failure(denied) => Step(denied, s, [])
    case Success(_) =>
      match FindPlant(s.plants, id)
      case None => Step(Reply(Ok, UpdateResult(0)), s, [])
      case Some(_) => Step(Reply(Ok, UpdateResult(1)), s.(plants := Restock(s.plants, id, Delta(amount, direction))), [])
  }

  /** Moving stock keeps plant ids unique. */
  lemma AdjustStockKeepsIdsUnique(s: Store, cred: Credential, id: ObjectId, amount: int, direction: string)
    requires UniquePlantIds(s.plants)
    ensures UniquePlantIds(AdjustStock(s, cred, id, amount, direction).next.plants)
  {
  }

  /** Moving stock by `a` and then by `-a` gives back the same plants. */
  lemma RestockCancels(plants: seq<Plant>, id: ObjectId, a: int)
    ensures Restock(Restock(plants, id, a), id, -a) == plants
  {
    var r := Restock(Restock(plants, id, a), id, -a);
    assert forall j :: 0 <= j < |plants| ==> r[j] == plants[j];
  }

  /** Restocking and then taking out the same amount restores the store exactly. */
  lemma IncreaseThenDecreaseRestores(s: Store, cred: Credential, id: ObjectId, amount: int)
    ensures var s1 := AdjustStock(s, cred, id, amount, INCREASE).next;
            AdjustStock(s1, cred, id, amount, "decrease").next == s
  {
    if cred.Signed? && FindPlant(s.plants, id).Some? {
      RestockCancels(s.plants, id, amount);
    }
  }

  /** The stock of the first plant with `id`, or 0 when there is none. */
  function StockOf(plants: seq<Plant>, id: ObjectId): int {
    match FindPlant(plants, id)
    case None => 0
    case Some(p) => p.quantity
  }

  /** Apply decrements one request after another, as the store serializes them. */
  function ApplyDecrements(s: Store, cred: Credential, id: ObjectId, amounts: seq<int>): Store
    decreases |amounts|
  {
    if |amounts| == 0 then s
    else ApplyDecrements(AdjustStock(s, cred, id, amounts[0], "decrease").next, cred, id, amounts[1..])
  }

  function Sum(xs: seq<int>): int {
    if |xs| == 0 then 0 else xs[0] + Sum(xs[1..])
  }

  /**
   * No decrement is lost: after any series of decrements of a stored plant,
   * its stock is the initial stock minus their sum, and no other plant moved.
   */
  lemma {:induction false} DecrementsAccumulate(s: Store, cred: Credential, id: ObjectId, amounts: seq<int>)
    requires cred.Signed? && FindPlant(s.plants, id).Some?
    decreases |amounts|
    ensures var s' := ApplyDecrements(s, cred, id, amounts);
            var i := FindFirst(s.plants, PlantIdIs(id)).value;
            StockOf(s'.plants, id) == StockOf(s.plants, id) - Sum(amounts) &&
            |s'.plants| == |s.plants| &&
            FindFirst(s'.plants, PlantIdIs(id)) == Some(i) &&
            forall j :: 0 <= j < |s.plants| && j != i ==> s'.plants[j] == s.plants[j]
  {
    if |amounts| > 0 {
      var s1 := AdjustStock(s, cred, id, amounts[0], "decrease").next;
      assert s1.plants == Restock(s.plants, id, -amounts[0]);
      DecrementsAccumulate(s1, cred, id, amounts[1..]);
    }
  }

  function SetStatus(status: string): Order -> Order { (o: Order) => o.(status := status) }

  /**
   * PATCH /order/status/:id (Seller). Every order with that id takes the new
   * status, whatever it was before; nothing else changes.
   */
  function SetOrderStatus(s: Store, cred: Credential, id: ObjectId, status: string): (r: Step)
    ensures r.effects == [] && r.next.users == s.users && r.next.plants == s.plants
    ensures Gate(s.users, cred, RoleIs(SELLER)).Failure? ==>
      r == Step(Gate(s.users, cred, RoleIs(SELLER)).error, s, [])
    ensures Gate(s.users, cred, RoleIs(SELLER)).Success? ==>
      r.response == Reply(Ok, UpdateResult(Count(s.orders, OrderIdIs(id)))) &&
      |r.next.orders| == |s.orders| &&
      (forall i :: 0 <= i < |s.orders| && s.orders[i].id == id ==>
        r.next.orders[i] == s.orders[i].(status := status)) &&
      (forall i :: 0 <= i < |s.orders| && s.orders[i].id != id ==> r.next.orders[i] == s.orders[i])
  {
    match Gate(s.users, cred, RoleIs(SELLER))
    case Failure(denied) => Step(denied, s, [])
    case Success(_) =>
      var orders := UpdateAll(s.orders, OrderIdIs(id), SetStatus(status));
      Step(Reply(Ok, UpdateResult(Count(s.orders, OrderIdIs(id)))), s.(orders := orders), [])
  }

  /** Setting the same status twice leaves the store as setting it once. */
  lemma SetOrderStatusIdempotent(s: Store, cred: Credential, id: ObjectId, status: string)
    requires Gate(s.users, cred, RoleIs(SELLER)).Success?
    ensures var s1 := SetOrderStatus(s, cred, id, status).next;
            SetOrderStatus(s1, cred, id, status).next == s1
  {
  }

  /** With unique ids at most one order is matched by a status update. */
  lemma {:induction false} UniqueIdMatchesAtMostOne(orders: seq<Order>, id: ObjectId)
    requires UniqueOrderIds(orders)
    ensures Count(orders, OrderIdIs(id)) <= 1
  {
    if |orders| > 0 {
      UniqueIdMatchesAtMostOne(orders[1..], id);
      if orders[0].id == id {
        assert forall j :: 0 <= j < |orders[1..]| ==> !OrderIdIs(id)(orders[1..][j]);
      }
    }
  }

  /**
   * DELETE /orders/:id. A Delivered order answers 409 and stays; any other
   * order is deleted. Stock is left alone. A missing order makes the source
   * dereference null, so the order must exist once the caller is signed in.
   */
  function CancelOrder(s: Store, cred: Credential, id: ObjectId): (r: Step)
    requires cred.Signed? ==> FindOrder(s.orders, id).Some?
    ensures r.effects == [] && r.next.users == s.users && r.next.plants == s.plants
    ensures Gate(s.users, cred, SignedIn).Failure? ==> r == Step(Denied401, s, [])
    ensures cred.Signed? && FindOrder(s.orders, id).value.status == DELIVERED ==>
      r == Step(Reply(Conflict, Message(DELIVERED_TEXT)), s, [])
    ensures cred.Signed? && FindOrder(s.orders, id).value.status != DELIVERED ==>
      r.response == Reply(Ok, DeleteResult(1)) &&
      |r.next.orders| == |s.orders| - 1 &&
      multiset(r.next.orders) + multiset{FindOrder(s.orders, id).value} == multiset(s.orders) &&
      var i := FindFirst(s.orders, OrderIdIs(id)).value;
      (forall j :: 0 <= j < i ==> r.next.orders[j] == s.orders[j]) &&
      (forall j :: i <= j < |r.next.orders| ==> r.next.orders[j] == s.orders[j + 1])
  {
    match Gate(s.users, cred, SignedIn)
    case Failure(denied) => Step(denied, s, [])
    case Success(_) =>
      var i := FindFirst(s.orders, OrderIdIs(id)).value;
      if s.orders[i].status == DELIVERED then
        Step(Reply(Conflict, Message(DELIVERED_TEXT)), s, [])
      else
        Step(Reply(Ok, DeleteResult(1)), s.(orders := RemoveAt(s.orders, i)), [])
  }

  /**
   * With unique ids, a successful cancel removes exactly the order with that
   * id: it is gone and every other order is still there.
   */
  lemma CancelRemovesExactlyThatOrder(s: Store, cred: Credential, id: ObjectId)
    requires UniqueOrderIds(s.orders)
    requires cred.Signed? && FindOrder(s.orders, id).Some?
    requires FindOrder(s.orders, id).value.status != DELIVERED
    ensures var after := CancelOrder(s, cred, id).next.orders;
            UniqueOrderIds(after) &&
            (forall k :: 0 <= k < |after| ==> after[k].id != id) &&
            (forall k :: 0 <= k < |s.orders| && s.orders[k].id != id ==> s.orders[k] in after)
  {
    var i := FindFirst(s.orders, OrderIdIs(id)).value;
    var after := CancelOrder(s, cred, id).next.orders;
    forall k | 0 <= k < |s.orders| && s.orders[k].id != id
      ensures s.orders[k] in after
    {
      if k < i {
        assert after[k] == s.orders[k];
      } else {
        assert k > i;
        assert after[k - 1] == s.orders[k];
      }
    }
  }

  /** Once a seller marks an order Delivered, the customer can no longer cancel it. */
  lemma DeliveredCannotBeCancelled(s: Store, seller: Credential, cred: Credential, id: ObjectId)
    requires Gate(s.users, seller, RoleIs(SELLER)).Success?
    requires cred.Signed? && FindOrder(s.orders, id).Some?
    ensures var s1 := SetOrderStatus(s, seller, id, DELIVERED).next;
            FindOrder(s1.orders, id).Some? &&
            CancelOrder(s1, cred, id) == Step(Reply(Conflict, Message(DELIVERED_TEXT)), s1, [])
  {
    var s1 := SetOrderStatus(s, seller, id, DELIVERED).next;
    var i := FindFirst(s.orders, OrderIdIs(id)).value;
    assert OrderIdIs(id)(s1.orders[i]);
    var k := FindFirst(s1.orders, OrderIdIs(id)).value;
    assert s1.orders[k].id == id;
  }

  /** No transition is refused: a Delivered order can be set back to any status. */
  lemma AnyStatusTransitionAccepted(s: Store, seller: Credential, id: ObjectId, status: string)
    requires Gate(s.users, seller, RoleIs(SELLER)).Success?
    requires FindOrder(s.orders, id).Some? && FindOrder(s.orders, id).value.status == DELIVERED
    ensures FindOrder(SetOrderStatus(s, seller, id, status).next.orders, id).value.status == status
  {
    var s1 := SetOrderStatus(s, seller, id, status).next;
    var i := FindFirst(s.orders, OrderIdIs(id)).value;
    assert OrderIdIs(id)(s1.orders[i]);
  }
}
