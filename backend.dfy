/** The remote document store and identity service, as the client sees them:
    three collections of schemaless documents and a set of principals.
    Each write is one step that either takes effect completely or not at all;
    whether it succeeds is an input to the step. */
module Backend {
  import opened Wrappers
  import opened Types
  import Text

  /** A value stored in an `id` field, as `typeof` distinguishes it. */
  datatype StoredId = StringId(s: string) | NumberId(n: int) | BoolId(b: bool) | NullId | MissingId {
    /** `String(id)`. */
    function ToText(): (r: string)
      ensures StringId? ==> r == s
    {
      match this
      case StringId(s) => s
      case NumberId(n) => Text.IntToDecimal(n)
      case BoolId(b) => if b then "true" else "false"
      case NullId => "null"
      case MissingId => "undefined"
    }
  }

  /** A cart line as stored in a document or in the session slot.
      `quantity` is `Number(quantity)`, `None` for NaN. */
  datatype StoredItem = StoredItem(
    id: StoredId,
    title: string,
    price: int,
    description: string,
    category: string,
    image: string,
    rating: Option<Rating>,
    quantity: Option<int>)

  /** The stored form of a cart line: its fields as they are. */
  function StoreItem(item: CartItem): (s: StoredItem)
    ensures s.id == StringId(item.Id()) && s.quantity == Some(item.quantity)
  {
    var p := item.product;
    StoredItem(StringId(p.id), p.title, p.price, p.description, p.category, p.image, p.rating, Some(item.quantity))
  }

  /** A document of the `products` collection; absent fields are `None`. */
  datatype ProductDoc = ProductDoc(
    title: Option<string>,
    price: Option<int>,
    description: Option<string>,
    category: Option<string>,
    image: Option<string>,
    rating: Option<Rating>)

  /** A document of the `orders` collection; `items == None` when the field is not an array. */
  datatype OrderDoc = OrderDoc(
    userId: Option<string>,
    userEmail: Option<string>,
    userName: Option<string>,
    shippingAddress: Option<string>,
    items: Option<seq<StoredItem>>,
    total: Option<int>)

  /** A document of the `users` collection, keyed by uid. */
  datatype ProfileDoc = ProfileDoc(
    uid: Option<string>,
    email: Option<string>,
    name: Option<string>,
    address: Option<string>,
    createdAt: Option<int>,
    updatedAt: Option<int>)

  /** The writes that took effect, in the order they did. */
  datatype StoreOp =
    | ProductAdded(id: string)
    | ProductUpdated(id: string)
    | ProductDeleted(id: string)
    | OrderAdded(id: string)
    | OrderDeleted(id: string)
    | ProfileWritten(uid: string)
    | ProfileDeleted(uid: string)
    | PrincipalCreated(uid: string)
    | PrincipalDeleted(uid: string)

  /** The ids of the orders a `where("userId", "==", uid)` query matches. */
  function OwnedOrders(orders: map<string, OrderDoc>, uid: string): set<string> {
    set id | id in orders && orders[id].userId == Some(uid)
  }

  class DocumentStore {
    var products: map<string, ProductDoc>
    var orders: map<string, OrderDoc>
    var users: map<string, ProfileDoc>
    var principals: set<string>
    var log: seq<StoreOp>

    constructor ()
      ensures products == map[] && orders == map[] && users == map[]
      ensures principals == {} && log == []
    {
      products, orders, users, principals, log := map[], map[], map[], {}, [];
    }

    /** `addDoc(productsRef, doc)`; the store assigns the unused id `id`. */
    method AddProduct(id: string, doc: ProductDoc, succeeds: bool) returns (ok: bool)
      requires id !in products
      modifies this
      ensures ok == succeeds
      ensures products == if ok then old(products)[id := doc] else old(products)
      ensures log == if ok then old(log) + [ProductAdded(id)] else old(log)
      ensures orders == old(orders) && users == old(users) && principals == old(principals)
    {
      ok := succeeds;
      if ok {
        products := products[id := doc];
        log := log + [ProductAdded(id)];
      }
    }

    /** `updateDoc(doc(productsRef, id), doc)` with every field given: it fails on a missing document. */
    method UpdateProduct(id: string, doc: ProductDoc, succeeds: bool) returns (ok: bool)
      modifies this
      ensures ok == (succeeds && id in old(products))
      ensures products == if ok then old(products)[id := doc] else old(products)
      ensures log == if ok then old(log) + [ProductUpdated(id)] else old(log)
      ensures orders == old(orders) && users == old(users) && principals == old(principals)
    {
      ok := succeeds && id in products;
      if ok {
        products := products[id := doc];
        log := log + [ProductUpdated(id)];
      }
    }

    /** `deleteDoc(doc(productsRef, id))`; deleting a missing document succeeds. */
    method DeleteProduct(id: string, succeeds: bool) returns (ok: bool)
      modifies this
      ensures ok == succeeds
      ensures products == if ok then old(products) - {id} else old(products)
      ensures log == if ok then old(log) + [ProductDeleted(id)] else old(log)
      ensures orders == old(orders) && users == old(users) && principals == old(principals)
    {
      ok := succeeds;
      if ok {
        products := products - {id};
        log := log + [ProductDeleted(id)];
      }
    }

    /** `addDoc(ordersRef, doc)`; the store assigns the unused id `id`. */
    method AddOrder(id: string, doc: OrderDoc, succeeds: bool) returns (ok: bool)
      requires id !in orders
      modifies this
      ensures ok == succeeds
      ensures orders == if ok then old(orders)[id := doc] else old(orders)
      ensures log == if ok then old(log) + [OrderAdded(id)] else old(log)
      ensures products == old(products) && users == old(users) && principals == old(principals)
    {
      ok := succeeds;
      if ok {
        orders := orders[id := doc];
        log := log + [OrderAdded(id)];
      }
    }

    method DeleteOrder(id: string, succeeds: bool) returns (ok: bool)
      modifies this
      ensures ok == succeeds
      ensures orders == if ok then old(orders) - {id} else old(orders)
      ensures log == if ok then old(log) + [OrderDeleted(id)] else old(log)
      ensures products == old(products) && users == old(users) && principals == old(principals)
    {
      ok := succeeds;
      if ok {
        orders := orders - {id};
        log := log + [OrderDeleted(id)];
      }
    }

    /** `setDoc(doc(db, "users", uid), doc)`, with or without merge: every field is given,
        so both replace the modelled fields. */
    method SetProfile(uid: string, doc: ProfileDoc, succeeds: bool) returns (ok: bool)
      modifies this
      ensures ok == succeeds
      ensures users == if ok then old(users)[uid := doc] else old(users)
      ensures log == if ok then old(log) + [ProfileWritten(uid)] else old(log)
      ensures products == old(products) && orders == old(orders) && principals == old(principals)
    {
      ok := succeeds;
      if ok {
        users := users[uid := doc];
        log := log + [ProfileWritten(uid)];
      }
    }

    method DeleteProfile(uid: string, succeeds: bool) returns (ok: bool)
      modifies this
      ensures ok == succeeds
      ensures users == if ok then old(users) - {uid} else old(users)
      ensures log == if ok then old(log) + [ProfileDeleted(uid)] else old(log)
      ensures products == old(products) && orders == old(orders) && principals == old(principals)
    {
      ok := succeeds;
      if ok {
        users := users - {uid};
        log := log + [ProfileDeleted(uid)];
      }
    }

    /** Account creation by the identity service, which picks the new uid. */
    method CreatePrincipal(uid: string, succeeds: bool) returns (ok: bool)
      requires uid !in principals
      modifies this
      ensures ok == succeeds
      ensures principals == if ok then old(principals) + {uid} else old(principals)
      ensures log == if ok then old(log) + [PrincipalCreated(uid)] else old(log)
      ensures products == old(products) && orders == old(orders) && users == old(users)
    {
      ok := succeeds;
      if ok {
        principals := principals + {uid};
        log := log + [PrincipalCreated(uid)];
      }
    }

    method DeletePrincipal(uid: string, succeeds: bool) returns (ok: bool)
      modifies this
      ensures ok == succeeds
      ensures principals == if ok then old(principals) - {uid} else old(principals)
      ensures log == if ok then old(log) + [PrincipalDeleted(uid)] else old(log)
      ensures products == old(products) && orders == old(orders) && users == old(users)
    {
      ok := succeeds;
      if ok {
        principals := principals - {uid};
        log := log + [PrincipalDeleted(uid)];
      }
    }
  }
}
