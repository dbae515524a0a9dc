/** The record normalisers and writes of src/firebase/firestore.ts. */
module Firestore {
  import opened Wrappers
  import opened Types
  import opened Backend

  /** `rating ?? { rate: 0, count: 0 }` */
  function NormalizeRating(r: Option<Rating>): Rating {
    r.GetOr(NoRating)
  }

  lemma NormalizeRatingIdempotent(r: Option<Rating>)
    ensures NormalizeRating(Some(NormalizeRating(r))) == NormalizeRating(r)
  {
  }

  // ---------------------------------------------------------------------------
  // Products

  /** One document of a `subscribeToProducts` snapshot: missing strings become "",
      a missing price 0, a missing rating the zero rating, and the id is the document's. */
  function NormalizeProduct(id: string, doc: ProductDoc): Product {
    Product(id, doc.title.GetOr(""), doc.price.GetOr(0), doc.description.GetOr(""),
            doc.category.GetOr(""), doc.image.GetOr(""), Some(NormalizeRating(doc.rating)))
  }

  /** A whole snapshot, in the order the store delivers it. */
  function NormalizeProducts(docs: seq<(string, ProductDoc)>): seq<Product> {
    seq(|docs|, i requires 0 <= i < |docs| => NormalizeProduct(docs[i].0, docs[i].1))
  }

  /** The fields `createProduct` and `updateProduct` write: the input with its rating normalised. */
  function ProductDocFor(input: ProductInput): ProductDoc {
    ProductDoc(Some(input.title), Some(input.price), Some(input.description),
               Some(input.category), Some(input.image), Some(NormalizeRating(input.rating)))
  }

  /** A product written from an input reads back with that input's fields. */
  lemma ProductRoundTrip(id: string, input: ProductInput)
    ensures NormalizeProduct(id, ProductDocFor(input))
         == Product(id, input.title, input.price, input.description, input.category, input.image,
                    Some(NormalizeRating(input.rating)))
  {
  }

  /** A document with no fields reads back as an empty product with the zero rating. */
  lemma NormalizeProductDefaults(id: string)
    ensures NormalizeProduct(id, ProductDoc(None, None, None, None, None, None))
         == Product(id, "", 0, "", "", "", Some(NoRating))
  {
  }

  /** A snapshot of documents written from `inputs` reads back, in order, as those inputs. */
  lemma SnapshotRoundTrip(docs: seq<(string, ProductDoc)>, inputs: seq<ProductInput>)
    requires |docs| == |inputs| && forall i :: 0 <= i < |docs| ==> docs[i].1 == ProductDocFor(inputs[i])
    ensures var ps := NormalizeProducts(docs);
      && |ps| == |inputs|
      && forall i :: 0 <= i < |ps| ==>
           ps[i] == Product(docs[i].0, inputs[i].title, inputs[i].price, inputs[i].description,
                            inputs[i].category, inputs[i].image, Some(NormalizeRating(inputs[i].rating)))
  {
  }

  /** An update whose input carries no rating stores the zero rating, whatever was stored before. */
  lemma UpdateWithoutRatingResetsIt(id: string, input: ProductInput)
    requires input.rating.None?
    ensures NormalizeProduct(id, ProductDocFor(input)).rating == Some(NoRating)
  {
  }

  method CreateProduct(store: DocumentStore, input: ProductInput, newId: string, succeeds: bool) returns (ok: bool)
    requires newId !in store.products
    modifies store
    ensures ok == succeeds
    ensures store.products == if ok then old(store.products)[newId := ProductDocFor(input)] else old(store.products)
    ensures store.log == if ok then old(store.log) + [ProductAdded(newId)] else old(store.log)
    ensures store.orders == old(store.orders) && store.users == old(store.users)
    ensures store.principals == old(store.principals)
  {
    ok := store.AddProduct(newId, ProductDocFor(input), succeeds);
  }

  method UpdateProduct(store: DocumentStore, id: string, input: ProductInput, succeeds: bool) returns (ok: bool)
    modifies store
    ensures ok == (succeeds && id in old(store.products))
    ensures store.products == if ok then old(store.products)[id := ProductDocFor(input)] else old(store.products)
    ensures store.log == if ok then old(store.log) + [ProductUpdated(id)] else old(store.log)
    ensures store.orders == old(store.orders) && store.users == old(store.users)
    ensures store.principals == old(store.principals)
  {
    ok := store.UpdateProduct(id, ProductDocFor(input), succeeds);
  }

  method DeleteProduct(store: DocumentStore, id: string, succeeds: bool) returns (ok: bool)
    modifies store
    ensures ok == succeeds
    ensures store.products == if ok then old(store.products) - {id} else old(store.products)
    ensures store.log == if ok then old(store.log) + [ProductDeleted(id)] else old(store.log)
    ensures store.orders == old(store.orders) && store.users == old(store.users)
    ensures store.principals == old(store.principals)
  {
    ok := store.DeleteProduct(id, succeeds);
  }

  // ---------------------------------------------------------------------------
  // Orders

  /** The optional user fields `createOrder` receives. */
  datatype OrderUserInfo = OrderUserInfo(email: Option<string>, name: Option<string>, address: Option<string>)

  /** One item as `createOrder` writes it: id as text, rating normalised, quantity at least 1,
      every other field copied. */
  function ItemForWrite(item: CartItem): (w: CartItem)
    ensures w.Id() == item.Id()
    ensures w.product.rating == Some(NormalizeRating(item.product.rating))
    ensures w.quantity >= 1 && (item.quantity >= 1 ==> w.quantity == item.quantity)
    ensures w.product.(rating := item.product.rating) == item.product
  {
    var p := item.product;
    CartItem(p.(id := StringId(p.id).ToText(), rating := Some(NormalizeRating(p.rating))),
             QuantityFrom(Some(item.quantity)))
  }

  /** One item as `subscribeToOrders` reads it back. */
  function ItemFromStore(s: StoredItem): CartItem {
    CartItem(Product(s.id.ToText(), s.title, s.price, s.description, s.category, s.image,
                     Some(NormalizeRating(s.rating))),
             QuantityFrom(s.quantity))
  }

  function WrittenItems(items: seq<CartItem>): seq<StoredItem> {
    seq(|items|, i requires 0 <= i < |items| => StoreItem(ItemForWrite(items[i])))
  }

  /** The payload `createOrder` sends: the user id, the items as written, the total,
      and each optional user field only when it is a non-empty string. */
  predicate IsOrderPayload(doc: OrderDoc, userId: string, items: seq<CartItem>, total: int, info: OrderUserInfo) {
    && doc.userId == Some(userId)
    && doc.items == Some(WrittenItems(items))
    && doc.total == Some(total)
    && doc.userEmail == (if Truthy(info.email) then info.email else None)
    && doc.userName == (if Truthy(info.name) then info.name else None)
    && doc.shippingAddress == (if Truthy(info.address) then info.address else None)
  }

  /** Builds the payload and then adds the optional fields one by one. */
  method BuildOrderPayload(userId: string, items: seq<CartItem>, total: int, info: OrderUserInfo)
    returns (doc: OrderDoc)
    ensures IsOrderPayload(doc, userId, items, total, info)
    ensures doc.userEmail.Some? <==> Truthy(info.email)
    ensures doc.userName.Some? <==> Truthy(info.name)
    ensures doc.shippingAddress.Some? <==> Truthy(info.address)
  {
    doc := OrderDoc(Some(userId), None, None, None, Some(WrittenItems(items)), Some(total));
    if Truthy(info.email) {
      doc := doc.(userEmail := info.email);
    }
    if Truthy(info.name) {
      doc := doc.(userName := info.name);
    }
    if Truthy(info.address) {
      doc := doc.(shippingAddress := info.address);
    }
  }

  /** `createOrder`: build the payload and add it as a new order document. */
  method CreateOrder(store: DocumentStore, userId: string, items: seq<CartItem>, total: int,
                     info: OrderUserInfo, newId: string, succeeds: bool)
    returns (ok: bool)
    requires newId !in store.orders
    modifies store
    ensures ok == succeeds
    ensures ok ==> newId in store.orders && IsOrderPayload(store.orders[newId], userId, items, total, info)
    ensures ok ==> store.orders.Keys == old(store.orders.Keys) + {newId}
    ensures ok ==> forall id :: id in old(store.orders) ==> store.orders[id] == old(store.orders[id])
    ensures !ok ==> store.orders == old(store.orders)
    ensures store.log == if ok then old(store.log) + [OrderAdded(newId)] else old(store.log)
    ensures store.products == old(store.products) && store.users == old(store.users)
    ensures store.principals == old(store.principals)
  {
    var doc := BuildOrderPayload(userId, items, total, info);
    ok := store.AddOrder(newId, doc, succeeds);
  }

  /** One document of a `subscribeToOrders(queriedUid, ...)` snapshot: a missing user id
      becomes the queried one, non-array items become [], a missing total 0. */
  function NormalizeOrder(id: string, queriedUid: string, doc: OrderDoc): Order {
    var items := match doc.items
      case None => []
      case Some(xs) => seq(|xs|, i requires 0 <= i < |xs| => ItemFromStore(xs[i]));
    Order(id, doc.userId.GetOr(queriedUid), doc.userEmail, doc.userName, doc.shippingAddress,
          items, doc.total.GetOr(0))
  }

  function NormalizeOrders(queriedUid: string, docs: seq<(string, OrderDoc)>): seq<Order> {
    seq(|docs|, i requires 0 <= i < |docs| => NormalizeOrder(docs[i].0, queriedUid, docs[i].1))
  }

  /** A document with no fields reads back as an order of the queried user with no items,
      no user fields and a total of 0. */
  lemma NormalizeOrderDefaults(id: string, queriedUid: string)
    ensures NormalizeOrder(id, queriedUid, OrderDoc(None, None, None, None, None, None))
         == Order(id, queriedUid, None, None, None, [], 0)
  {
  }

  /** A stored user id wins over the queried one. */
  lemma NormalizeOrderKeepsUser(id: string, queriedUid: string, doc: OrderDoc)
    requires doc.userId.Some?
    ensures NormalizeOrder(id, queriedUid, doc).userId == doc.userId.value
  {
  }

  /** A snapshot of order documents written by `createOrder` for one user reads back,
      in order, with that user, total and items. */
  lemma OrdersSnapshotRoundTrip(queriedUid: string, docs: seq<(string, OrderDoc)>, items: seq<seq<CartItem>>,
                                totals: seq<int>, infos: seq<OrderUserInfo>)
    requires |docs| == |items| == |totals| == |infos|
    requires forall i :: 0 <= i < |docs| ==> IsOrderPayload(docs[i].1, queriedUid, items[i], totals[i], infos[i])
    ensures var os := NormalizeOrders(queriedUid, docs);
      && |os| == |docs|
      && forall i :: 0 <= i < |os| ==>
           os[i].id == docs[i].0 && os[i].userId == queriedUid && os[i].total == totals[i]
           && |os[i].items| == |items[i]|
           && forall j :: 0 <= j < |items[i]| ==> os[i].items[j] == ItemForWrite(items[i][j])
  {
    var os := NormalizeOrders(queriedUid, docs);
    forall i | 0 <= i < |os|
      ensures os[i].id == docs[i].0 && os[i].userId == queriedUid && os[i].total == totals[i]
      ensures |os[i].items| == |items[i]|
      ensures forall j :: 0 <= j < |items[i]| ==> os[i].items[j] == ItemForWrite(items[i][j])
    {
      OrderRoundTrip(docs[i].0, queriedUid, docs[i].1, queriedUid, items[i], totals[i], infos[i]);
    }
  }

  /** An item written by `createOrder` is read back exactly as it was written. */
  lemma ItemRoundTrip(item: CartItem)
    ensures ItemFromStore(StoreItem(ItemForWrite(item))) == ItemForWrite(item)
  {
  }

  /** Writing an already written item changes nothing. */
  lemma ItemForWriteIdempotent(item: CartItem)
    ensures ItemForWrite(ItemForWrite(item)) == ItemForWrite(item)
  {
  }

  /** A cart line with a quantity of at least 1 and a rating is written as it is. */
  lemma ItemForWriteKeepsNormalItems(item: CartItem)
    requires item.quantity >= 1 && item.product.rating.Some?
    ensures ItemForWrite(item) == item
  {
  }

  /** An order written by `createOrder` and read back by `subscribeToOrders` keeps its user,
      its total, its non-empty user fields and its items as written, in order. */
  lemma {:induction false} OrderRoundTrip(id: string, queriedUid: string, doc: OrderDoc,
                                          userId: string, items: seq<CartItem>, total: int, info: OrderUserInfo)
    requires IsOrderPayload(doc, userId, items, total, info)
    ensures NormalizeOrder(id, queriedUid, doc)
         == Order(id, userId,
                  if Truthy(info.email) then info.email else None,
                  if Truthy(info.name) then info.name else None,
                  if Truthy(info.address) then info.address else None,
                  seq(|items|, i requires 0 <= i < |items| => ItemForWrite(items[i])),
                  total)
  {
    var o := NormalizeOrder(id, queriedUid, doc);
    forall i | 0 <= i < |items| ensures o.items[i] == ItemForWrite(items[i]) {
      ItemRoundTrip(items[i]);
    }
  }
}
