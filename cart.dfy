/** The cart store (src/store/cartSlice.ts): an ordered list of cart lines mirrored
    into the session-storage slot "cart". */
module Cart {
  import opened Wrappers
  import opened Types
  import opened Backend

  /** One element of the array parsed from the slot. */
  datatype SlotEntry = NonObject | Entry(item: StoredItem)

  /** What `JSON.parse` makes of the slot's text. */
  datatype SlotValue = EmptyText | ArrayOf(entries: seq<SlotEntry>) | NotAnArray | Unparsable

  predicate QuantitiesPositive(items: seq<CartItem>) {
    forall i :: 0 <= i < |items| ==> items[i].quantity >= 1
  }

  predicate UniqueIds(items: seq<CartItem>) {
    forall i, j :: 0 <= i < j < |items| ==> items[i].Id() != items[j].Id()
  }

  /** `items.find(item => item.id === id)`, as a position. */
  function IndexOf(items: seq<CartItem>, id: string): (r: Option<nat>)
    ensures r.Some? ==> r.value < |items| && items[r.value].Id() == id
    ensures r.Some? ==> forall j :: 0 <= j < r.value ==> items[j].Id() != id
    ensures r.None? <==> forall j :: 0 <= j < |items| ==> items[j].Id() != id
  {
    if items == [] then None
    else if items[0].Id() == id then Some(0)
    else
      match IndexOf(items[1..], id)
      case None => None
      case Some(k) => Some(k + 1)
  }

  // ---------------------------------------------------------------------------
  // The reducers as functions on the item list

  /** `addToCart`: bump the first line with the product's id, or append a new line. */
  function Added(items: seq<CartItem>, p: Product): seq<CartItem> {
    if items == [] then [CartItem(p, 1)]
    else if items[0].Id() == p.id then [items[0].(quantity := items[0].quantity + 1)] + items[1..]
    else [items[0]] + Added(items[1..], p)
  }

  /** `removeFromCart`: keep the lines whose id differs. */
  function Removed(items: seq<CartItem>, id: string): seq<CartItem> {
    if items == [] then []
    else if items[0].Id() == id then Removed(items[1..], id)
    else [items[0]] + Removed(items[1..], id)
  }

  /** `updateQuantity`: the first line with the id gets `max(1, q)`. */
  function QuantitySet(items: seq<CartItem>, id: string, q: int): seq<CartItem> {
    if items == [] then []
    else if items[0].Id() == id then [items[0].(quantity := Max(1, q))] + items[1..]
    else [items[0]] + QuantitySet(items[1..], id, q)
  }

  /** `n` consecutive `addToCart(p)`. */
  function AddTimes(items: seq<CartItem>, p: Product, n: nat): seq<CartItem> {
    if n == 0 then items else Added(AddTimes(items, p, n - 1), p)
  }

  /** Updating position `k + 1` of a non-empty sequence updates position `k` of its tail. */
  lemma UpdateInTail<T>(xs: seq<T>, k: nat, v: T)
    requires k + 1 < |xs|
    ensures xs[k + 1 := v] == [xs[0]] + xs[1..][k := v]
  {
  }

  lemma AppendToTail<T>(xs: seq<T>, y: T)
    requires |xs| > 0
    ensures xs + [y] == [xs[0]] + (xs[1..] + [y])
  {
    assert xs == [xs[0]] + xs[1..];
  }

  /** Adding a product already in the cart increments that line only; a new product
      is appended with quantity 1. */
  lemma {:induction false} AddedMerges(items: seq<CartItem>, p: Product)
    ensures IndexOf(items, p.id).Some? ==>
      var k := IndexOf(items, p.id).value;
      Added(items, p) == items[k := items[k].(quantity := items[k].quantity + 1)]
    ensures IndexOf(items, p.id).None? ==> Added(items, p) == items + [CartItem(p, 1)]
  {
    if items == [] {
    } else if items[0].Id() == p.id {
      assert IndexOf(items, p.id) == Some(0);
    } else {
      var rest := items[1..];
      AddedMerges(rest, p);
      match IndexOf(rest, p.id)
      case Some(k) =>
        assert IndexOf(items, p.id) == Some(k + 1);
        UpdateInTail(items, k, rest[k].(quantity := rest[k].quantity + 1));
      case None =>
        assert IndexOf(items, p.id) == None;
        AppendToTail(items, CartItem(p, 1));
    }
  }

  /** Setting a quantity changes the first line with that id to `max(1, q)`, and
      nothing when the id is absent. */
  lemma {:induction false} QuantitySetAt(items: seq<CartItem>, id: string, q: int)
    ensures IndexOf(items, id).Some? ==>
      var k := IndexOf(items, id).value;
      QuantitySet(items, id, q) == items[k := items[k].(quantity := Max(1, q))]
    ensures IndexOf(items, id).None? ==> QuantitySet(items, id, q) == items
  {
    if items == [] {
    } else if items[0].Id() == id {
      assert IndexOf(items, id) == Some(0);
    } else {
      var rest := items[1..];
      QuantitySetAt(rest, id, q);
      match IndexOf(rest, id)
      case Some(k) =>
        assert IndexOf(items, id) == Some(k + 1);
        UpdateInTail(items, k, rest[k].(quantity := Max(1, q)));
      case None =>
        assert IndexOf(items, id) == None;
        assert items == [items[0]] + rest;
    }
  }

  /** Removing keeps exactly the lines with another id. */
  lemma {:induction false} RemovedMembers(items: seq<CartItem>, id: string)
    ensures forall x :: x in Removed(items, id) <==> x in items && x.Id() != id
  {
    if items != [] {
      RemovedMembers(items[1..], id);
      assert items == [items[0]] + items[1..];
    }
  }

  /** Removing an absent id leaves the list as it was. */
  lemma {:induction false} RemovedAbsent(items: seq<CartItem>, id: string)
    requires IndexOf(items, id).None?
    ensures Removed(items, id) == items
  {
    if items != [] {
      RemovedAbsent(items[1..], id);
      assert items == [items[0]] + items[1..];
    }
  }

  /** With unique ids, removing a present id cuts out that one line and keeps the order. */
  lemma {:induction false} RemovedAt(items: seq<CartItem>, k: nat)
    requires UniqueIds(items) && k < |items|
    ensures Removed(items, items[k].Id()) == items[..k] + items[k + 1..]
  {
    var id := items[k].Id();
    if k == 0 {
      RemovedAbsent(items[1..], id);
    } else {
      RemovedAt(items[1..], k - 1);
      assert items[1..][k - 1] == items[k];
      assert items[..k] == [items[0]] + items[1..][..k - 1];
      assert items[k + 1..] == items[1..][k..];
    }
  }

  /** Every reducer keeps the ids unique. */
  lemma ReducersKeepIdsUnique(items: seq<CartItem>, p: Product, id: string, q: int)
    requires UniqueIds(items)
    ensures UniqueIds(Added(items, p))
    ensures UniqueIds(Removed(items, id))
    ensures UniqueIds(QuantitySet(items, id, q))
  {
    AddedMerges(items, p);
    QuantitySetAt(items, id, q);
    RemovedUnique(items, id);
  }

  lemma {:induction false} RemovedUnique(items: seq<CartItem>, id: string)
    requires UniqueIds(items)
    ensures UniqueIds(Removed(items, id))
  {
    if items != [] {
      RemovedUnique(items[1..], id);
      RemovedMembers(items[1..], id);
      var rest := Removed(items[1..], id);
      if items[0].Id() != id {
        forall j | 0 <= j < |rest| ensures rest[j].Id() != items[0].Id() {
          assert rest[j] in items[1..];
        }
      }
    }
  }

  /** Every reducer keeps every quantity at least 1. */
  lemma ReducersKeepQuantitiesPositive(items: seq<CartItem>, p: Product, id: string, q: int)
    requires QuantitiesPositive(items)
    ensures QuantitiesPositive(Added(items, p))
    ensures QuantitiesPositive(Removed(items, id))
    ensures QuantitiesPositive(QuantitySet(items, id, q))
  {
    AddedMerges(items, p);
    QuantitySetAt(items, id, q);
    RemovedMembers(items, id);
    var r := Removed(items, id);
    forall j | 0 <= j < |r| ensures r[j].quantity >= 1 {
      assert r[j] in items;
    }
  }

  lemma {:induction false} IndexOfAppend(items: seq<CartItem>, x: CartItem)
    requires IndexOf(items, x.Id()).None?
    ensures IndexOf(items + [x], x.Id()) == Some(|items|)
  {
    if items != [] {
      assert (items + [x])[1..] == items[1..] + [x];
      IndexOfAppend(items[1..], x);
    }
  }

  /** Adding a product that is not in the cart `n` times leaves one line for it,
      at the end, whose quantity is `n`. */
  lemma {:induction false} RepeatedAdds(items: seq<CartItem>, p: Product, n: nat)
    requires IndexOf(items, p.id).None? && n >= 1
    ensures AddTimes(items, p, n) == items + [CartItem(p, n)]
  {
    AddedMerges(items, p);
    if n > 1 {
      RepeatedAdds(items, p, n - 1);
      var prev := items + [CartItem(p, n - 1)];
      IndexOfAppend(items, CartItem(p, n - 1));
      AddedMerges(prev, p);
    }
  }

  /** `addToCart` dispatched for each product of `ps`, first to last. */
  function AddAll(items: seq<CartItem>, ps: seq<Product>): seq<CartItem> {
    if ps == [] then items else Added(AddAll(items, ps[..|ps| - 1]), ps[|ps| - 1])
  }

  /** How many products of `ps` have the id `id`. */
  function CountId(ps: seq<Product>, id: string): nat {
    if ps == [] then 0
    else CountId(ps[..|ps| - 1], id) + (if ps[|ps| - 1].id == id then 1 else 0)
  }

  lemma {:induction false} CountIdPositive(ps: seq<Product>, id: string)
    ensures CountId(ps, id) > 0 <==> exists i :: 0 <= i < |ps| && ps[i].id == id
  {
    if ps != [] {
      var init := ps[..|ps| - 1];
      CountIdPositive(init, id);
      assert forall i :: 0 <= i < |init| ==> init[i] == ps[i];
    }
  }

  /** Two lists with the same ids position by position find an id at the same place. */
  lemma IndexOfSameIds(a: seq<CartItem>, b: seq<CartItem>, id: string)
    requires |a| == |b| && forall i :: 0 <= i < |a| ==> a[i].Id() == b[i].Id()
    ensures IndexOf(a, id) == IndexOf(b, id)
  {
    var ra, rb := IndexOf(a, id), IndexOf(b, id);
    if ra.Some? && rb.Some? {
      assert a[rb.value].Id() == id && b[ra.value].Id() == id;
    }
  }

  /** Adding `p` gives its line one more unit, or appends it with one unit. */
  lemma AddedSame(items: seq<CartItem>, p: Product)
    ensures IndexOf(items, p.id).Some? ==>
      var k := IndexOf(items, p.id).value;
      IndexOf(Added(items, p), p.id) == Some(k) && Added(items, p)[k].quantity == items[k].quantity + 1
    ensures IndexOf(items, p.id).None? ==>
      IndexOf(Added(items, p), p.id) == Some(|items|) && Added(items, p)[|items|].quantity == 1
  {
    AddedMerges(items, p);
    if IndexOf(items, p.id).Some? {
      var k := IndexOf(items, p.id).value;
      IndexOfSameIds(items, Added(items, p), p.id);
    } else {
      IndexOfAppend(items, CartItem(p, 1));
    }
  }

  /** Appending a line with another id does not move the first line with `id`. */
  lemma IndexOfAppendOther(items: seq<CartItem>, x: CartItem, id: string)
    requires x.Id() != id
    ensures IndexOf(items + [x], id) == IndexOf(items, id)
  {
    var r := items + [x];
    assert forall j :: 0 <= j < |items| ==> r[j] == items[j];
    var a, b := IndexOf(r, id), IndexOf(items, id);
    if a.Some? {
      assert a.value < |items| && items[a.value].Id() == id;
    }
    if b.Some? {
      assert r[b.value].Id() == id;
    }
  }

  /** Adding another product leaves the line of `id` where it was and as it was. */
  lemma AddedOther(items: seq<CartItem>, q: Product, id: string)
    requires q.id != id
    ensures IndexOf(Added(items, q), id) == IndexOf(items, id)
    ensures IndexOf(items, id).Some? ==>
      Added(items, q)[IndexOf(items, id).value] == items[IndexOf(items, id).value]
  {
    AddedMerges(items, q);
    if IndexOf(items, q.id).Some? {
      IndexOfSameIds(items, Added(items, q), id);
    } else {
      IndexOfAppendOther(items, CartItem(q, 1), id);
    }
  }

  /** Any sequence of `addToCart` calls, other products interleaved, on a cart without the
      id: a line for the id exists exactly when some call had that id, and its quantity is
      the number of such calls. */
  lemma {:induction false} AddsCounted(items: seq<CartItem>, ps: seq<Product>, id: string)
    requires IndexOf(items, id).None?
    ensures var r := AddAll(items, ps);
      && (IndexOf(r, id).Some? <==> exists i :: 0 <= i < |ps| && ps[i].id == id)
      && (IndexOf(r, id).Some? ==> r[IndexOf(r, id).value].quantity == CountId(ps, id))
  {
    CountIdPositive(ps, id);
    AddsCountedBy(items, ps, id);
  }

  lemma {:induction false} AddsCountedBy(items: seq<CartItem>, ps: seq<Product>, id: string)
    requires IndexOf(items, id).None?
    ensures var r := AddAll(items, ps);
      && (IndexOf(r, id).Some? <==> CountId(ps, id) > 0)
      && (IndexOf(r, id).Some? ==> r[IndexOf(r, id).value].quantity == CountId(ps, id))
  {
    if ps != [] {
      var init, q := ps[..|ps| - 1], ps[|ps| - 1];
      AddsCountedBy(items, init, id);
      var prev := AddAll(items, init);
      if q.id == id {
        AddedSame(prev, q);
      } else {
        AddedOther(prev, q, id);
      }
    }
  }

  // ---------------------------------------------------------------------------
  // Persistence: `persistCart` and the restore inside `loadCartFromSession`

  /** `JSON.stringify(items)` as the array it parses back to. */
  function Serialize(items: seq<CartItem>): seq<SlotEntry> {
    seq(|items|, i requires 0 <= i < |items| => Entry(StoreItem(items[i])))
  }

  /** The slot after `persistCart(items)`: removed for an empty cart, the items otherwise. */
  function SlotFor(items: seq<CartItem>): (slot: Option<SlotValue>)
    ensures slot.None? <==> items == []
  {
    if |items| == 0 then None else Some(ArrayOf(Serialize(items)))
  }

  /** The filter of the restore: an object whose id is a string or a number. */
  predicate Kept(e: SlotEntry) {
    e.Entry? && (e.item.id.StringId? || e.item.id.NumberId?)
  }

  /** The map of the restore: the id as text and a quantity of at least 1. */
  function Normalized(e: SlotEntry): CartItem
    requires Kept(e)
  {
    var s := e.item;
    CartItem(Product(s.id.ToText(), s.title, s.price, s.description, s.category, s.image, s.rating),
             QuantityFrom(s.quantity))
  }

  function RestoreEntries(es: seq<SlotEntry>): (r: seq<CartItem>)
    ensures |r| <= |es|
    ensures QuantitiesPositive(r)
  {
    if es == [] then []
    else if Kept(es[0]) then [Normalized(es[0])] + RestoreEntries(es[1..])
    else RestoreEntries(es[1..])
  }

  /** The cart restored from the slot; anything but an array gives an empty cart. */
  function Restore(slot: Option<SlotValue>): (r: seq<CartItem>)
    ensures QuantitiesPositive(r)
    ensures !(slot.Some? && slot.value.ArrayOf?) ==> r == []
  {
    match slot
    case Some(ArrayOf(es)) => RestoreEntries(es)
    case _ => []
  }

  /** The restore works entry by entry, in order. */
  lemma {:induction false} RestoreConcat(a: seq<SlotEntry>, b: seq<SlotEntry>)
    ensures RestoreEntries(a + b) == RestoreEntries(a) + RestoreEntries(b)
  {
    if a == [] {
      assert a + b == b;
    } else {
      var e, rest := a[0], a[1..];
      var head := if Kept(e) then [Normalized(e)] else [];
      assert a == [e] + rest;
      assert a + b == [e] + (rest + b);
      RestoreCons(e, rest);
      RestoreCons(e, rest + b);
      RestoreConcat(rest, b);
      assert head + (RestoreEntries(rest) + RestoreEntries(b)) == (head + RestoreEntries(rest)) + RestoreEntries(b);
    }
  }

  lemma RestoreCons(e: SlotEntry, rest: seq<SlotEntry>)
    ensures RestoreEntries([e] + rest) == (if Kept(e) then [Normalized(e)] else []) + RestoreEntries(rest)
  {
    assert ([e] + rest)[0] == e;
    assert ([e] + rest)[1..] == rest;
  }

  /** When every entry is well formed, nothing is dropped and each is normalised in place. */
  lemma {:induction false} RestoreWellFormed(es: seq<SlotEntry>)
    requires forall i :: 0 <= i < |es| ==> Kept(es[i])
    ensures |RestoreEntries(es)| == |es|
    ensures forall i :: 0 <= i < |es| ==> RestoreEntries(es)[i] == Normalized(es[i])
  {
    if es != [] {
      RestoreWellFormed(es[1..]);
    }
  }

  /** Entries that are not objects or whose id is neither a string nor a number are dropped. */
  lemma {:induction false} RestoreDropsMalformed(es: seq<SlotEntry>)
    requires forall i :: 0 <= i < |es| ==> !Kept(es[i])
    ensures RestoreEntries(es) == []
  {
    if es != [] {
      RestoreDropsMalformed(es[1..]);
    }
  }

  /** What `persistCart` stores, the next session restores unchanged. */
  lemma RestoreAfterPersist(items: seq<CartItem>)
    requires QuantitiesPositive(items)
    ensures Restore(SlotFor(items)) == items
  {
    if items != [] {
      var es := Serialize(items);
      RestoreWellFormed(es);
      forall i | 0 <= i < |items| ensures RestoreEntries(es)[i] == items[i] {
        assert es[i] == Entry(StoreItem(items[i]));
      }
    }
  }

  /** The restore does not merge lines: a slot holding the same line twice gives a cart
      whose ids are not unique. */
  lemma RestoreKeepsDuplicates()
    ensures var s := StoredItem(StringId("p"), "", 0, "", "", "", None, Some(1));
      var r := Restore(Some(ArrayOf([Entry(s), Entry(s)])));
      |r| == 2 && !UniqueIds(r)
  {
    var s := StoredItem(StringId("p"), "", 0, "", "", "", None, Some(1));
    var es := [Entry(s), Entry(s)];
    RestoreWellFormed(es);
    var r := RestoreEntries(es);
    assert r[0].Id() == r[1].Id();
  }

  // ---------------------------------------------------------------------------
  // The store itself

  class CartStore {
    /** `state.items` */
    var items: seq<CartItem>
    /** `sessionStorage["cart"]`, `None` when the key is absent. */
    var slot: Option<SlotValue>

    ghost predicate Valid()
      reads this
    {
      QuantitiesPositive(items)
    }

    /** The initial state: the items restored from the slot found at start-up. */
    constructor (stored: Option<SlotValue>)
      ensures Valid()
      ensures items == Restore(stored) && slot == stored
    {
      items := Restore(stored);
      slot := stored;
    }

    /** `persistCart(state.items)` */
    method Persist()
      modifies this`slot
      ensures slot == SlotFor(items)
    {
      if |items| == 0 {
        slot := None;
      } else {
        slot := Some(ArrayOf(Serialize(items)));
      }
    }

    method AddToCart(p: Product)
      requires Valid()
      modifies this
      ensures Valid()
      ensures items == Added(old(items), p)
      ensures slot == SlotFor(items)
    {
      AddedMerges(items, p);
      ReducersKeepQuantitiesPositive(items, p, p.id, 1);
      var existing := IndexOf(items, p.id);
      if existing.Some? {
        var k := existing.value;
        items := items[k := items[k].(quantity := items[k].quantity + 1)];
      } else {
        items := items + [CartItem(p, 1)];
      }
      Persist();
    }

    method RemoveFromCart(id: string)
      requires Valid()
      modifies this
      ensures Valid()
      ensures items == Removed(old(items), id)
      ensures slot == SlotFor(items)
    {
      ReducersKeepQuantitiesPositive(items, Product(id, "", 0, "", "", "", None), id, 1);
      items := Removed(items, id);
      Persist();
    }

    /** An absent id changes nothing, the slot included. */
    method UpdateQuantity(id: string, quantity: int)
      requires Valid()
      modifies this
      ensures Valid()
      ensures items == QuantitySet(old(items), id, quantity)
      ensures IndexOf(old(items), id).Some? ==> slot == SlotFor(items)
      ensures IndexOf(old(items), id).None? ==> items == old(items) && slot == old(slot)
    {
      QuantitySetAt(items, id, quantity);
      ReducersKeepQuantitiesPositive(items, Product(id, "", 0, "", "", "", None), id, quantity);
      var found := IndexOf(items, id);
      if found.Some? {
        var k := found.value;
        items := items[k := items[k].(quantity := Max(1, quantity))];
        Persist();
      }
    }

    method ClearCart()
      modifies this
      ensures Valid()
      ensures items == [] && slot == None
    {
      items := [];
      Persist();
    }
  }
}
