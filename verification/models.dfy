/**
 * The persisted entities of the shop and the document store that holds them.
 * The store is a set of maps from identifiers to records; every write a
 * handler issues is also appended to a ghost journal so that the order of
 * writes can be stated.
 */
module Models {

  /** Identifiers of stored documents. Fresh ones come from `Store.nextId`. */
  type Id = nat

  datatype Option<+T> = None | Some(value: T)

  datatype Result<+T, +E> = Success(value: T) | Failure(error: E)

  /** An HTTP error reply: the status code and the `message` field of the JSON body. */
  datatype HttpError = HttpError(status: nat, message: string)

  /** The reply of every catch-all handler: a thrown exception becomes a 500. */
  const SOMETHING_WENT_WRONG := HttpError(500, "Something went wrong!")

  /** A route parameter meant to be an ObjectId: either a well-formed id or some other text. */
  datatype PathParam = Parsed(id: Id) | Malformed(text: string)

  datatype Product = Product(
    name: string,
    description: string,
    richDescription: string,
    image: string,
    images: seq<string>,
    brand: string,
    price: int,
    category: Id,
    countInStock: int,
    rating: int,
    numReviews: int,
    isFeatured: bool)

  datatype OrderItem = OrderItem(quantity: nat, product: Id)

  datatype Shipping = Shipping(
    firstName: string,
    lastName: string,
    shippingAddress: string,
    country: string,
    city: string,
    zip: string,
    phone: string)

  datatype Order = Order(
    orderItems: seq<Id>,
    shipping: Shipping,
    status: string,
    totalPrice: int,
    user: Id)

  /** One write issued to the store, in the order the handlers issue them. */
  datatype Write =
    | SaveOrderItem(id: Id)
    | SaveOrder(id: Id)
    | SaveProduct(id: Id)
    | UpdateOrder(id: Id)
    | DeleteOrder(id: Id)
    | DeleteOrderItem(id: Id)
    | UpdateProduct(id: Id)

  /** The document store: one map per collection. */
  class Store {
    var categories: set<Id>
    var products: map<Id, Product>
    var orderItems: map<Id, OrderItem>
    var orders: map<Id, Order>
    /** Every identifier in use is below this one; ids are handed out from here upwards. */
    var nextId: Id
    /** The writes issued so far, oldest first. */
    ghost var log: seq<Write>

    ghost predicate Valid()
      reads this
    {
      && (forall k :: k in categories ==> k < nextId)
      && (forall k :: k in products ==> k < nextId)
      && (forall k :: k in orderItems ==> k < nextId)
      && (forall k :: k in orders ==> k < nextId)
    }

    constructor ()
      ensures Valid()
      ensures categories == {} && products == map[] && orderItems == map[] && orders == map[]
      ensures log == []
    {
      categories, products, orderItems, orders := {}, map[], map[], map[];
      nextId := 0;
      log := [];
    }
  }
}
