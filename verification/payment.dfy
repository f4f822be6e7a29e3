/**
 * POST /create-payment-intent: the charge amount comes from the stored
 * plant's price, never from the client. The payment provider itself is not
 * modelled; the `Charge` effect records the amount and currency sent to it.
 */
module Payment {
  import opened Wrappers
  import opened Records
  import opened Api
  import opened Access
  import Orders

  const CURRENCY := "usd"

  /** `convertToCent`: whole units to minor units, exactly. */
  function ConvertToCent(amount: int): (cents: int)
    ensures cents % 100 == 0 && cents / 100 == amount
  {
    amount * 100
  }

  /**
   * A missing plant makes the handler return without answering and without
   * creating a payment intent; otherwise exactly one intent is requested
   * for `totalQuantity * price` in cents, and the store is not touched.
   * `accepted` is the provider's verdict on that request: the client secret
   * is sent only when the provider creates the intent; a refused request
   * (a non-positive amount, say) rejects the awaited call and nothing is sent.
   */
  function CreatePaymentIntent(s: Store, cred: Credential, id: ObjectId, totalQuantity: int, accepted: bool): (r: Step)
    ensures r.next == s
    ensures Gate(s.users, cred, SignedIn).Failure? ==> r.response == Denied401 && r.effects == []
    ensures cred.Signed? && FindPlant(s.plants, id).None? ==> r.response == NoResponse && r.effects == []
    ensures cred.Signed? && FindPlant(s.plants, id).Some? ==>
      var price := FindPlant(s.plants, id).value.price;
      r.effects == [Charge(totalQuantity * price * 100, CURRENCY)] &&
      r.response == (if accepted then Reply(Ok, ClientSecret(totalQuantity * price * 100)) else NoResponse)
  {
    match Gate(s.users, cred, SignedIn)
    case Failure(denied) => Step(denied, s, [])
    case Success(_) =>
      match FindPlant(s.plants, id)
      case None => Step(NoResponse, s, [])
      case Some(plant) =>
        var amount := ConvertToCent(totalQuantity * plant.price);
        if accepted then Step(Reply(Ok, ClientSecret(amount)), s, [Charge(amount, CURRENCY)])
        else Step(NoResponse, s, [Charge(amount, CURRENCY)])
  }

  /** Every charge the handler requests is a whole number of currency units. */
  lemma ChargeIsWholeUnits(s: Store, cred: Credential, id: ObjectId, totalQuantity: int, accepted: bool)
    ensures forall e :: e in CreatePaymentIntent(s, cred, id, totalQuantity, accepted).effects ==>
      e.Charge? && e.amount % 100 == 0 && e.currency == CURRENCY
  {
  }

  /**
   * The charge agrees with the order: for the same plant and quantity on the
   * same store, the amount requested is the placed order's price in cents.
   */
  lemma ChargeMatchesOrderPrice(s: Store, cred: Credential, req: OrderRequest, id: ObjectId, day: Day, accepted: bool)
    requires cred.Signed? && FindPlant(s.plants, req.plantId).Some?
    ensures var placed := Orders.PlaceOrder(s, cred, req, id, day).next.orders;
            var order := placed[|placed| - 1];
            CreatePaymentIntent(s, cred, req.plantId, req.quantity, accepted).effects == [Charge(ConvertToCent(order.price), CURRENCY)]
  {
  }

  /** A plant priced 25 bought three at a time is charged 7500 cents. */
  lemma ExampleQuote()
    ensures var plant := Plant(7, "Fern", "Indoor", "", 25, 10, Seller("s@x.com", "S"));
            var s := Store([], [plant], []);
            var r := CreatePaymentIntent(s, Signed("a@x.com"), 7, 3, true);
            r.effects == [Charge(7500, CURRENCY)] && r.response == Reply(Ok, ClientSecret(7500))
  {
    var plant := Plant(7, "Fern", "Indoor", "", 25, 10, Seller("s@x.com", "S"));
    assert PlantIdIs(7)(plant);
  }

  /**
   * With unique plant ids, the charge for the plant stored at index `i` is
   * priced from that very record.
   */
  lemma ChargeUsesStoredPrice(s: Store, email: Email, i: nat, totalQuantity: int, accepted: bool)
    requires UniquePlantIds(s.plants) && i < |s.plants|
    ensures CreatePaymentIntent(s, Signed(email), s.plants[i].id, totalQuantity, accepted).effects
      == [Charge(ConvertToCent(totalQuantity * s.plants[i].price), CURRENCY)]
  {
    FindPlantUnique(s.plants, i);
  }
}
