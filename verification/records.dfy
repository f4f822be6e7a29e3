/**
 * The documents of the three collections `users`, `plants` and `orders`, and
 * the store that holds them. Identifiers are abstract `ObjectId`s; parsing
 * them from strings is not part of this model.
 */
module Records {
  import opened Wrappers
  import opened Collection

  type Email = string
  type ObjectId = nat
  /** A calendar day; ordering days is ordering their "%Y-%m-%d" strings. */
  type Day = int

  const CUSTOMER := "Customer"
  const SELLER := "Seller"
  const ADMIN := "Admin"
  const DELIVERED := "Delivered"
  const INCREASE := "increase"

  /** The `status` field of a user: absent until a seller request, then set by the server. */
  datatype UserStatus = NoStatus | Requested | Verified

  /** The body a client sends when it signs in for the first time. */
  datatype Profile = Profile(email: Email, name: string, image: string)

  datatype User = User(
    email: Email, name: string, image: string,
    role: string, status: UserStatus, timestamp: int)

  datatype Seller = Seller(email: Email, name: string)

  datatype Plant = Plant(
    id: ObjectId, name: string, category: string, image: string,
    price: int, quantity: int, seller: Seller)

  datatype Customer = Customer(email: Email, name: string, image: string)

  /** The body of POST /order: what the client claims, price included. */
  datatype OrderRequest = OrderRequest(
    plantId: ObjectId, customer: Customer, sellerEmail: Email,
    quantity: int, price: int, status: string)

  /** A stored order; `day` is the creation day its ObjectId encodes. */
  datatype Order = Order(
    id: ObjectId, plantId: ObjectId, customer: Customer, sellerEmail: Email,
    quantity: int, price: int, status: string, day: Day)

  datatype Store = Store(users: seq<User>, plants: seq<Plant>, orders: seq<Order>)

  function HasEmail(email: Email): User -> bool { (u: User) => u.email == email }
  function PlantIdIs(id: ObjectId): Plant -> bool { (p: Plant) => p.id == id }
  function OrderIdIs(id: ObjectId): Order -> bool { (o: Order) => o.id == id }

  /** `userCollection.findOne({ email })`. */
  function FindUser(users: seq<User>, email: Email): (r: Option<User>)
    ensures r.Some? ==> r.value in users && r.value.email == email
    ensures r.Some? ==>
      exists i :: 0 <= i < |users| && users[i] == r.value && (forall j :: 0 <= j < i ==> users[j].email != email)
    ensures r.None? <==> forall i :: 0 <= i < |users| ==> users[i].email != email
  {
    match FindFirst(users, HasEmail(email))
    case None => None
    case Some(i) => Some(users[i])
  }

  /** `plantsCollection.findOne({ _id })`. */
  function FindPlant(plants: seq<Plant>, id: ObjectId): (r: Option<Plant>)
    ensures r.Some? ==> r.value in plants && r.value.id == id
    ensures r.Some? ==>
      exists i :: 0 <= i < |plants| && plants[i] == r.value && (forall j :: 0 <= j < i ==> plants[j].id != id)
    ensures r.None? <==> forall i :: 0 <= i < |plants| ==> plants[i].id != id
  {
    match FindFirst(plants, PlantIdIs(id))
    case None => None
    case Some(i) => Some(plants[i])
  }

  /** `ordersCollection.findOne({ _id })`. */
  function FindOrder(orders: seq<Order>, id: ObjectId): (r: Option<Order>)
    ensures r.Some? ==> r.value in orders && r.value.id == id
    ensures r.Some? ==>
      exists i :: 0 <= i < |orders| && orders[i] == r.value && (forall j :: 0 <= j < i ==> orders[j].id != id)
    ensures r.None? <==> forall i :: 0 <= i < |orders| ==> orders[i].id != id
  {
    match FindFirst(orders, OrderIdIs(id))
    case None => None
    case Some(i) => Some(orders[i])
  }

  predicate UniqueEmails(users: seq<User>) {
    forall i, j :: 0 <= i < j < |users| ==> users[i].email != users[j].email
  }

  predicate UniquePlantIds(plants: seq<Plant>) {
    forall i, j :: 0 <= i < j < |plants| ==> plants[i].id != plants[j].id
  }

  predicate UniqueOrderIds(orders: seq<Order>) {
    forall i, j :: 0 <= i < j < |orders| ==> orders[i].id != orders[j].id
  }

  /** With unique emails, the user `findOne` returns is the only one with that email. */
  lemma FindUserUnique(users: seq<User>, i: nat)
    requires UniqueEmails(users) && i < |users|
    ensures FindUser(users, users[i].email) == Some(users[i])
  {
    assert HasEmail(users[i].email)(users[i]);
  }

  /** With unique ids, the plant `findOne` returns is the only one with that id. */
  lemma FindPlantUnique(plants: seq<Plant>, i: nat)
    requires UniquePlantIds(plants) && i < |plants|
    ensures FindPlant(plants, plants[i].id) == Some(plants[i])
  {
    assert PlantIdIs(plants[i].id)(plants[i]);
  }
}
