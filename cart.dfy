/**
 * The session cart of rose_cakes/views.py: a dict from cake id to quantity.
 * Python dicts iterate in insertion order, and the checkout creates its order
 * items in that order, so the cart is a sequence of entries with distinct
 * keys; `Quantity` is its dictionary view.
 */
module Cart {
  import opened Wrappers
  import opened Models

  datatype Entry = Entry(cake: CakeId, quantity: nat)

  predicate DistinctKeys(cart: seq<Entry>)
  {
    forall i, j :: 0 <= i < j < |cart| ==> cart[i].cake != cart[j].cake
  }

  /** What the three cart views maintain: one entry per cake, each quantity at least 1. */
  predicate WellFormed(cart: seq<Entry>)
  {
    DistinctKeys(cart) && forall i :: 0 <= i < |cart| ==> cart[i].quantity >= 1
  }

  /** The dict's keys in iteration order. */
  function Ids(cart: seq<Entry>): (ids: seq<CakeId>)
    ensures |ids| == |cart| && forall i :: 0 <= i < |cart| ==> ids[i] == cart[i].cake
  {
    seq(|cart|, i requires 0 <= i < |cart| => cart[i].cake)
  }

  /** `str(cake_id) in cart`, answered with the entry's position. */
  function IndexOf(cart: seq<Entry>, id: CakeId): (r: Option<nat>)
    ensures r.Some? ==> r.value < |cart| && cart[r.value].cake == id
    ensures r.None? <==> forall i :: 0 <= i < |cart| ==> cart[i].cake != id
  {
    if cart == [] then None
    else if cart[0].cake == id then Some(0)
    else match IndexOf(cart[1..], id)
      case None => None
      case Some(k) => Some(k + 1)
  }

  /** `cart.get(str(id), 0)`. */
  function Quantity(cart: seq<Entry>, id: CakeId): nat
  {
    match IndexOf(cart, id)
    case None => 0
    case Some(i) => cart[i].quantity
  }

  lemma QuantityAt(cart: seq<Entry>, i: nat)
    requires DistinctKeys(cart) && i < |cart|
    ensures Quantity(cart, cart[i].cake) == cart[i].quantity
  {
  }

  /** Replacing one entry's quantity changes that cake's quantity and no other. */
  lemma QuantityAfterUpdate(cart: seq<Entry>, i: nat, q: nat, other: CakeId)
    requires DistinctKeys(cart) && i < |cart|
    ensures DistinctKeys(cart[i := Entry(cart[i].cake, q)])
    ensures Quantity(cart[i := Entry(cart[i].cake, q)], other)
         == if other == cart[i].cake then q else Quantity(cart, other)
  {
    var updated := cart[i := Entry(cart[i].cake, q)];
    assert Ids(updated) == Ids(cart);
    assert forall j :: 0 <= j < |cart| ==> updated[j].cake == cart[j].cake;
  }

  /** Deleting one entry makes that cake's quantity 0 and changes no other. */
  lemma QuantityAfterDelete(cart: seq<Entry>, i: nat, other: CakeId)
    requires DistinctKeys(cart) && i < |cart|
    ensures DistinctKeys(cart[..i] + cart[i + 1..])
    ensures Quantity(cart[..i] + cart[i + 1..], other)
         == if other == cart[i].cake then 0 else Quantity(cart, other)
  {
    var rest := cart[..i] + cart[i + 1..];
    assert forall j :: 0 <= j < |rest| ==> rest[j] == if j < i then cart[j] else cart[j + 1];
    if other != cart[i].cake {
      match IndexOf(cart, other)
      case None =>
      case Some(j) =>
        var k := if j < i then j else j - 1;
        assert rest[k] == cart[j];
    }
  }

  /** Appending an entry for a cake not yet in the cart. */
  lemma QuantityAfterAppend(cart: seq<Entry>, e: Entry, other: CakeId)
    requires DistinctKeys(cart) && IndexOf(cart, e.cake).None?
    ensures DistinctKeys(cart + [e])
    ensures Quantity(cart + [e], other) == if other == e.cake then e.quantity else Quantity(cart, other)
  {
    var grown := cart + [e];
    assert grown[|cart|] == e;
    assert forall j :: 0 <= j < |cart| ==> grown[j] == cart[j];
  }

  /**
   * add_to_cart's update: a present cake's quantity rises by one in place, an
   * absent cake is appended with quantity 1.
   */
  function Added(cart: seq<Entry>, id: CakeId): seq<Entry>
  {
    match IndexOf(cart, id)
    case Some(i) => cart[i := Entry(id, cart[i].quantity + 1)]
    case None => cart + [Entry(id, 1)]
  }

  /**
   * After add_to_cart the cake has one unit more, no other quantity changes,
   * the cart stays well formed, and the key order is kept or the new cake is
   * last.
   */
  lemma AddedSpec(cart: seq<Entry>, id: CakeId)
    requires WellFormed(cart)
    ensures WellFormed(Added(cart, id))
    ensures Quantity(Added(cart, id), id) == Quantity(cart, id) + 1
    ensures forall other :: other != id ==> Quantity(Added(cart, id), other) == Quantity(cart, other)
    ensures Ids(Added(cart, id)) == if IndexOf(cart, id).Some? then Ids(cart) else Ids(cart) + [id]
  {
    match IndexOf(cart, id)
    case Some(i) =>
      assert cart[i].cake == id;
      assert Added(cart, id) == cart[i := Entry(cart[i].cake, cart[i].quantity + 1)];
      QuantityAt(cart, i);
      Incremented(cart, i);
    case None =>
      assert Added(cart, id) == cart + [Entry(id, 1)];
      Appended(cart, id);
  }

  /** The in-place branch of add_to_cart. */
  lemma Incremented(cart: seq<Entry>, i: nat)
    requires WellFormed(cart) && i < |cart|
    ensures var r := cart[i := Entry(cart[i].cake, cart[i].quantity + 1)];
            && WellFormed(r)
            && Quantity(r, cart[i].cake) == cart[i].quantity + 1
            && (forall other :: other != cart[i].cake ==> Quantity(r, other) == Quantity(cart, other))
            && Ids(r) == Ids(cart)
  {
    var r := cart[i := Entry(cart[i].cake, cart[i].quantity + 1)];
    forall other ensures Quantity(r, other) == if other == cart[i].cake then cart[i].quantity + 1 else Quantity(cart, other) {
      QuantityAfterUpdate(cart, i, cart[i].quantity + 1, other);
    }
    assert Ids(r) == Ids(cart);
  }

  /** The append branch of add_to_cart. */
  lemma Appended(cart: seq<Entry>, id: CakeId)
    requires WellFormed(cart) && IndexOf(cart, id).None?
    ensures var r := cart + [Entry(id, 1)];
            && WellFormed(r)
            && Quantity(r, id) == 1 && Quantity(cart, id) == 0
            && (forall other :: other != id ==> Quantity(r, other) == Quantity(cart, other))
            && Ids(r) == Ids(cart) + [id]
  {
    var r := cart + [Entry(id, 1)];
    forall other ensures Quantity(r, other) == if other == id then 1 else Quantity(cart, other) {
      QuantityAfterAppend(cart, Entry(id, 1), other);
    }
    assert Ids(r) == Ids(cart) + [id];
  }

  /**
   * remove_from_cart's update: a quantity above 1 drops by one in place, a
   * quantity of 1 deletes the entry, an absent cake leaves the cart as it was.
   */
  function Removed(cart: seq<Entry>, id: CakeId): seq<Entry>
  {
    match IndexOf(cart, id)
    case None => cart
    case Some(i) =>
      if cart[i].quantity > 1 then cart[i := Entry(id, cart[i].quantity - 1)]
      else cart[..i] + cart[i + 1..]
  }

  /**
   * After remove_from_cart the cake has one unit fewer, or none when it had
   * one; no other quantity changes and the cart stays well formed. An absent
   * cake leaves the cart identical; a decrement keeps the key order; the last
   * unit's removal shortens the cart by one entry.
   */
  lemma RemovedSpec(cart: seq<Entry>, id: CakeId)
    requires WellFormed(cart)
    ensures WellFormed(Removed(cart, id))
    ensures Quantity(Removed(cart, id), id) == if Quantity(cart, id) > 1 then Quantity(cart, id) - 1 else 0
    ensures forall other :: other != id ==> Quantity(Removed(cart, id), other) == Quantity(cart, other)
    ensures IndexOf(cart, id).None? ==> Removed(cart, id) == cart
    ensures Quantity(cart, id) > 1 ==> Ids(Removed(cart, id)) == Ids(cart)
    ensures Quantity(cart, id) == 1 ==> |Removed(cart, id)| == |cart| - 1 && IndexOf(Removed(cart, id), id).None?
  {
    match IndexOf(cart, id)
    case None =>
    case Some(i) =>
      QuantityAt(cart, i);
      if cart[i].quantity > 1 {
        Decremented(cart, i);
      } else {
        Deleted(cart, i);
      }
  }

  /** The decrement branch of remove_from_cart. */
  lemma Decremented(cart: seq<Entry>, i: nat)
    requires WellFormed(cart) && i < |cart| && cart[i].quantity > 1
    ensures var r := cart[i := Entry(cart[i].cake, cart[i].quantity - 1)];
            && WellFormed(r)
            && Quantity(r, cart[i].cake) == cart[i].quantity - 1
            && (forall other :: other != cart[i].cake ==> Quantity(r, other) == Quantity(cart, other))
            && Ids(r) == Ids(cart)
  {
    var r := cart[i := Entry(cart[i].cake, cart[i].quantity - 1)];
    forall other ensures Quantity(r, other) == if other == cart[i].cake then cart[i].quantity - 1 else Quantity(cart, other) {
      QuantityAfterUpdate(cart, i, cart[i].quantity - 1, other);
    }
    assert Ids(r) == Ids(cart);
  }

  /** The delete branch of remove_from_cart. */
  lemma Deleted(cart: seq<Entry>, i: nat)
    requires WellFormed(cart) && i < |cart|
    ensures var r := cart[..i] + cart[i + 1..];
            && WellFormed(r)
            && Quantity(r, cart[i].cake) == 0
            && (forall other :: other != cart[i].cake ==> Quantity(r, other) == Quantity(cart, other))
            && |r| == |cart| - 1 && IndexOf(r, cart[i].cake).None?
  {
    var r := cart[..i] + cart[i + 1..];
    forall other ensures Quantity(r, other) == if other == cart[i].cake then 0 else Quantity(cart, other) {
      QuantityAfterDelete(cart, i, other);
    }
    assert forall j :: 0 <= j < |r| ==> r[j] == if j < i then cart[j] else cart[j + 1];
  }

  /** buy_now's cart: exactly one unit of one cake, whatever was there before. */
  function BoughtNow(id: CakeId): (r: seq<Entry>)
    ensures WellFormed(r) && Ids(r) == [id]
    ensures Quantity(r, id) == 1
    ensures forall other :: other != id ==> Quantity(r, other) == 0
  {
    [Entry(id, 1)]
  }

  /** In a well-formed cart a cake is present exactly when its quantity is positive. */
  lemma PresentIffPositive(cart: seq<Entry>, id: CakeId)
    requires WellFormed(cart)
    ensures IndexOf(cart, id).Some? <==> Quantity(cart, id) >= 1
  {
  }

  /** Adding a unit and then removing it gives back the same quantities. */
  lemma RemoveUndoesAdd(cart: seq<Entry>, id: CakeId, other: CakeId)
    requires WellFormed(cart)
    ensures Quantity(Removed(Added(cart, id), id), other) == Quantity(cart, other)
  {
    AddedSpec(cart, id);
    RemovedSpec(Added(cart, id), id);
  }
}
