/**
 * The order lists: GET /orders (a customer's orders) and GET /orders/seller
 * (a seller's orders). Each filters the orders, then `$lookup` joins every
 * plant with the order's `plantId` and `$unwind` emits one row per joined
 * plant, so an order whose plant is gone yields no row.
 */
module Reports {
  import opened Wrappers
  import opened Collection
  import opened Records
  import opened Api
  import opened Access

  function ForCustomer(email: Email): Order -> bool { (o: Order) => o.customer.email == email }
  function ForSeller(email: Email): Order -> bool { (o: Order) => o.sellerEmail == email }
  function HasPlant(plants: seq<Plant>): Order -> bool { (o: Order) => FindPlant(plants, o.plantId).Some? }

  /** `$addFields` from the joined plant, then `$project` dropping the plant. */
  function RowFor(o: Order, p: Plant, detailed: bool): Row {
    if detailed then CustomerRow(o, p.name, p.category, p.image) else SellerRow(o, p.name)
  }

  /** The rows `$unwind` makes of one order and the plants `$lookup` found for it. */
  function Unwind(o: Order, found: seq<Plant>, detailed: bool): (r: seq<Row>)
    ensures |r| == |found|
    ensures forall k :: 0 <= k < |r| ==> r[k] == RowFor(o, found[k], detailed)
    ensures forall k :: 0 <= k < |r| ==> r[k].order == o && (r[k].CustomerRow? <==> detailed)
  {
    seq(|found|, k requires 0 <= k < |found| => RowFor(o, found[k], detailed))
  }

  /** If `$lookup` finds any plant for `id`, `findOne` finds one too. */
  lemma LookupFindsPlant(plants: seq<Plant>, id: ObjectId)
    requires |Filter(plants, PlantIdIs(id))| > 0
    ensures FindPlant(plants, id).Some?
  {
    var p := Filter(plants, PlantIdIs(id))[0];
    assert PlantIdIs(id)(p) && p in plants;
  }

  /** `$lookup` then `$unwind` over `orders`, keeping their order. */
  function Join(orders: seq<Order>, plants: seq<Plant>, detailed: bool): (r: seq<Row>)
    ensures forall k :: 0 <= k < |r| ==> r[k].order in orders
    ensures forall k :: 0 <= k < |r| ==> FindPlant(plants, r[k].order.plantId).Some?
    ensures forall k :: 0 <= k < |r| ==> (r[k].CustomerRow? <==> detailed)
  {
    if |orders| == 0 then []
    else
      var o := orders[0];
      var found := Filter(plants, PlantIdIs(o.plantId));
      var head := Unwind(o, found, detailed);
      var rest := Join(orders[1..], plants, detailed);
      if |found| == 0 then
        assert head + rest == rest;
        rest
      else
        LookupFindsPlant(plants, o.plantId);
        JoinStep(o, orders, head, rest, plants, detailed);
        head + rest
  }

  /** The facts `Join` promises survive putting one order's rows in front. */
  lemma JoinStep(o: Order, orders: seq<Order>, head: seq<Row>, rest: seq<Row>, plants: seq<Plant>, detailed: bool)
    requires |orders| > 0 && o == orders[0]
    requires FindPlant(plants, o.plantId).Some?
    requires forall k :: 0 <= k < |head| ==> head[k].order == o && (head[k].CustomerRow? <==> detailed)
    requires forall k :: 0 <= k < |rest| ==> rest[k].order in orders[1..]
    requires forall k :: 0 <= k < |rest| ==> FindPlant(plants, rest[k].order.plantId).Some?
    requires forall k :: 0 <= k < |rest| ==> (rest[k].CustomerRow? <==> detailed)
    ensures forall k :: 0 <= k < |head + rest| ==> (head + rest)[k].order in orders
    ensures forall k :: 0 <= k < |head + rest| ==> FindPlant(plants, (head + rest)[k].order.plantId).Some?
    ensures forall k :: 0 <= k < |head + rest| ==> ((head + rest)[k].CustomerRow? <==> detailed)
  {
    forall k | 0 <= k < |head + rest|
      ensures (head + rest)[k].order in orders
      ensures FindPlant(plants, (head + rest)[k].order.plantId).Some?
      ensures (head + rest)[k].CustomerRow? <==> detailed
    {
      if k < |head| {
        assert (head + rest)[k] == head[k];
      } else {
        assert (head + rest)[k] == rest[k - |head|];
        assert rest[k - |head|].order in orders[1..];
      }
    }
  }

  function OrdersOf(rows: seq<Row>): (r: seq<Order>)
    ensures |r| == |rows|
  {
    seq(|rows|, k requires 0 <= k < |rows| => rows[k].order)
  }

  lemma {:induction false} FilterNone<T>(docs: seq<T>, p: T -> bool)
    requires forall j :: 0 <= j < |docs| ==> !p(docs[j])
    ensures Filter(docs, p) == []
  {
    if |docs| > 0 {
      FilterNone(docs[1..], p);
    }
  }

  /** With unique plant ids `$lookup` finds exactly the plant `findOne` would. */
  lemma LookupUnique(plants: seq<Plant>, id: ObjectId)
    requires UniquePlantIds(plants)
    ensures FindPlant(plants, id).None? ==> Filter(plants, PlantIdIs(id)) == []
    ensures FindPlant(plants, id).Some? ==> Filter(plants, PlantIdIs(id)) == [FindPlant(plants, id).value]
  {
    match FindFirst(plants, PlantIdIs(id))
    case None =>
      FilterNone(plants, PlantIdIs(id));
    case Some(i) =>
      LookupAt(plants, id, i);
  }

  /** The only plant `$lookup` finds is the one at the first match. */
  lemma LookupAt(plants: seq<Plant>, id: ObjectId, i: nat)
    requires UniquePlantIds(plants)
    requires FindFirst(plants, PlantIdIs(id)) == Some(i)
    ensures Filter(plants, PlantIdIs(id)) == [plants[i]]
  {
    var p := PlantIdIs(id);
    var before, from := plants[..i], plants[i..];
    assert plants == before + from;
    FilterAppend(before, from, p);
    FilterNone(before, p);
    var after := plants[i + 1..];
    assert from[0] == plants[i] && from[1..] == after;
    forall j | 0 <= j < |after|
      ensures !p(after[j])
    {
      assert after[j] == plants[i + 1 + j];
      assert plants[i].id == id;
    }
    FilterNone(after, p);
  }

  lemma OrdersOfAppend(a: seq<Row>, b: seq<Row>)
    ensures OrdersOf(a + b) == OrdersOf(a) + OrdersOf(b)
  {
  }

  /**
   * With unique plant ids the join keeps exactly the orders whose plant
   * exists, once each, in their order.
   */
  lemma {:induction false} JoinKeepsOrdersWithPlant(orders: seq<Order>, plants: seq<Plant>, detailed: bool)
    requires UniquePlantIds(plants)
    ensures OrdersOf(Join(orders, plants, detailed)) == Filter(orders, HasPlant(plants))
  {
    if |orders| > 0 {
      var o := orders[0];
      var found := Filter(plants, PlantIdIs(o.plantId));
      var head := Unwind(o, found, detailed);
      var rest := Join(orders[1..], plants, detailed);
      LookupUnique(plants, o.plantId);
      JoinKeepsOrdersWithPlant(orders[1..], plants, detailed);
      OrdersOfAppend(head, rest);
      if HasPlant(plants)(o) {
        assert |found| == 1;
        assert OrdersOf(head) == [o];
      } else {
        assert OrdersOf(head) == [];
      }
    }
  }

  /** The row shows the fields of the plant `findOne` gives for its order. */
  predicate CarriesPlant(row: Row, plants: seq<Plant>, detailed: bool) {
    match FindPlant(plants, row.order.plantId)
    case None => false
    case Some(p) => row == RowFor(row.order, p, detailed)
  }

  /** The rows of one order carry the plant `findOne` gives for it. */
  lemma UnwindCarriesPlant(o: Order, plants: seq<Plant>, detailed: bool)
    requires UniquePlantIds(plants)
    ensures var head := Unwind(o, Filter(plants, PlantIdIs(o.plantId)), detailed);
            forall k :: 0 <= k < |head| ==> CarriesPlant(head[k], plants, detailed)
  {
    LookupUnique(plants, o.plantId);
    var found := Filter(plants, PlantIdIs(o.plantId));
    var head := Unwind(o, found, detailed);
    if |head| > 0 {
      assert head[0] == RowFor(o, FindPlant(plants, o.plantId).value, detailed);
      assert head[0].order == o;
    }
  }

  /** Two lists of rows that each carry their plants still do when joined end to end. */
  lemma CarriesAppend(a: seq<Row>, b: seq<Row>, plants: seq<Plant>, detailed: bool)
    requires forall k :: 0 <= k < |a| ==> CarriesPlant(a[k], plants, detailed)
    requires forall k :: 0 <= k < |b| ==> CarriesPlant(b[k], plants, detailed)
    ensures forall k :: 0 <= k < |a + b| ==> CarriesPlant((a + b)[k], plants, detailed)
  {
    forall k | 0 <= k < |a + b|
      ensures CarriesPlant((a + b)[k], plants, detailed)
    {
      if k < |a| {
        assert (a + b)[k] == a[k];
      } else {
        assert (a + b)[k] == b[k - |a|];
      }
    }
  }

  /** With unique plant ids every row carries the fields of its order's plant. */
  lemma {:induction false} JoinRowsCarryPlant(orders: seq<Order>, plants: seq<Plant>, detailed: bool)
    requires UniquePlantIds(plants)
    ensures forall k :: 0 <= k < |Join(orders, plants, detailed)| ==>
      CarriesPlant(Join(orders, plants, detailed)[k], plants, detailed)
  {
    if |orders| > 0 {
      var o := orders[0];
      var head := Unwind(o, Filter(plants, PlantIdIs(o.plantId)), detailed);
      var rest := Join(orders[1..], plants, detailed);
      UnwindCarriesPlant(o, plants, detailed);
      JoinRowsCarryPlant(orders[1..], plants, detailed);
      CarriesAppend(head, rest, plants, detailed);
      assert Join(orders, plants, detailed) == head + rest;
    }
  }

  /**
   * GET /orders?email=. Any signed-in caller gets the rows of the orders
   * whose customer has that email; the store is not touched.
   */
  function CustomerOrders(s: Store, cred: Credential, email: Email): (r: Step)
    ensures r.next == s && r.effects == []
    ensures Gate(s.users, cred, SignedIn).Failure? ==> r.response == Denied401
    ensures cred.Signed? ==>
      r.response.Reply? && r.response.status == Ok && r.response.body.OrderRows? &&
      var rows := r.response.body.rows;
      forall k :: 0 <= k < |rows| ==>
        rows[k].CustomerRow? && rows[k].order in s.orders &&
        rows[k].order.customer.email == email && HasPlant(s.plants)(rows[k].order)
  {
    match Gate(s.users, cred, SignedIn)
    case Failure(denied) => Step(denied, s, [])
    case Success(_) =>
      Step(Reply(Ok, OrderRows(Join(Filter(s.orders, ForCustomer(email)), s.plants, true))), s, [])
  }

  /**
   * GET /orders/seller (Seller): the rows of the orders addressed to the
   * caller's own email.
   */
  function SellerOrders(s: Store, cred: Credential): (r: Step)
    ensures r.next == s && r.effects == []
    ensures Gate(s.users, cred, RoleIs(SELLER)).Failure? ==>
      r.response == Gate(s.users, cred, RoleIs(SELLER)).error
    ensures Gate(s.users, cred, RoleIs(SELLER)).Success? ==>
      r.response.Reply? && r.response.status == Ok && r.response.body.OrderRows? &&
      var rows := r.response.body.rows;
      forall k :: 0 <= k < |rows| ==>
        rows[k].SellerRow? && rows[k].order in s.orders &&
        rows[k].order.sellerEmail == cred.email && HasPlant(s.plants)(rows[k].order)
  {
    match Gate(s.users, cred, RoleIs(SELLER))
    case Failure(denied) => Step(denied, s, [])
    case Success(email) =>
      Step(Reply(Ok, OrderRows(Join(Filter(s.orders, ForSeller(email)), s.plants, false))), s, [])
  }

  /**
   * With unique plant ids, a customer sees exactly their orders whose plant
   * still exists, in stored order; an order of theirs whose plant was
   * deleted is silently missing from the list.
   */
  lemma CustomerOrdersExact(s: Store, cred: Credential, email: Email)
    requires UniquePlantIds(s.plants) && cred.Signed?
    ensures OrdersOf(CustomerOrders(s, cred, email).response.body.rows) ==
      Filter(Filter(s.orders, ForCustomer(email)), HasPlant(s.plants))
    ensures forall k :: 0 <= k < |CustomerOrders(s, cred, email).response.body.rows| ==>
      CarriesPlant(CustomerOrders(s, cred, email).response.body.rows[k], s.plants, true)
  {
    JoinKeepsOrdersWithPlant(Filter(s.orders, ForCustomer(email)), s.plants, true);
    JoinRowsCarryPlant(Filter(s.orders, ForCustomer(email)), s.plants, true);
  }

  /** With unique plant ids, a seller sees exactly the orders addressed to them whose plant exists. */
  lemma SellerOrdersExact(s: Store, cred: Credential)
    requires UniquePlantIds(s.plants) && Gate(s.users, cred, RoleIs(SELLER)).Success?
    ensures OrdersOf(SellerOrders(s, cred).response.body.rows) ==
      Filter(Filter(s.orders, ForSeller(cred.email)), HasPlant(s.plants))
    ensures forall k :: 0 <= k < |SellerOrders(s, cred).response.body.rows| ==>
      CarriesPlant(SellerOrders(s, cred).response.body.rows[k], s.plants, false)
  {
    JoinKeepsOrdersWithPlant(Filter(s.orders, ForSeller(cred.email)), s.plants, false);
    JoinRowsCarryPlant(Filter(s.orders, ForSeller(cred.email)), s.plants, false);
  }
}
