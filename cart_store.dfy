/** The cart store itself: one object whose five fields the four commands
    read and replace. Each command is specified by its transition in
    CartState, so every lemma proved there holds of the store. */
module CartStore {
  import opened CartItems
  import opened CartState

  class Cart {
    var items: seq<CartItem>
    var canteenId: Option<string>
    var subtotal: real
    var tax: real
    var total: real

    /** The store's fields as a value. */
    function Snapshot(): State
      reads this
    {
      State(items, canteenId, subtotal, tax, total)
    }

    ghost predicate Valid()
      reads this
    {
      Consistent(Snapshot())
    }

    /** The store as first created: an empty cart with zero totals. */
    constructor ()
      ensures Snapshot() == Init
      ensures Valid() && SingleCanteen(Snapshot())
    {
      items, canteenId := [], None;
      subtotal, tax, total := 0.0, 0.0, 0.0;
    }

    /** Recomputes the three money fields from `newItems` by a full reduction
        and stores them with the new list. This is one step inside the
        commands below, not a command of the store: on its own it does not
        keep `Valid()`, since the new list may repeat an id. */
    method SetPriced(newItems: seq<CartItem>)
      modifies this
      ensures items == newItems && canteenId == old(canteenId)
      ensures subtotal == Subtotal(newItems) && tax == Tax(subtotal) && total == Total(subtotal)
    {
      var newSubtotal := Subtotal(newItems);
      var newTax := Tax(newSubtotal);
      items, subtotal, tax, total := newItems, newSubtotal, newTax, Total(newSubtotal);
    }

    /** `addItem`. Returns false, and changes nothing, when the cart belongs to
        another canteen; the source shows an alert at that point. */
    method AddItem(item: CartItem) returns (accepted: bool)
      requires Valid()
      modifies this
      ensures accepted <==> !Rejects(old(canteenId), item.canteenId)
      ensures Snapshot() == Add(old(Snapshot()), item)
      ensures !accepted ==> Snapshot() == old(Snapshot())
      ensures accepted ==> canteenId == Some(item.canteenId)
      ensures Valid()
      ensures (old(SingleCanteen(Snapshot())) && (old(canteenId) == Some("") ==> item.canteenId == ""))
                ==> SingleCanteen(Snapshot())
    {
      ghost var before := Snapshot();
      AddConsistent(before, item);
      if SingleCanteen(before) && (canteenId == Some("") ==> item.canteenId == "") {
        AddSingleCanteen(before, item);
      }
      if canteenId.Some? && canteenId.value != "" && canteenId.value != item.canteenId {
        assert Add(before, item) == before;
        return false;
      }
      assert Add(before, item) == Priced(Merged(before.items, item), Some(item.canteenId));
      var existing := Find(items, item.id);
      var newItems;
      if existing.Some? {
        newItems := IncrementId(items, item.id);
      } else {
        newItems := items + [item.(quantity := 1)];
      }
      assert newItems == Merged(before.items, item);
      SetPriced(newItems);
      canteenId := Some(item.canteenId);
      accepted := true;
      assert Snapshot() == Priced(newItems, Some(item.canteenId));
    }

    /** `removeItem`: drops every line with the id and re-derives the canteen
        from the first remaining line. */
    method RemoveItem(id: string)
      requires Valid()
      modifies this
      ensures Snapshot() == Remove(old(Snapshot()), id)
      ensures Valid() && !HasId(items, id)
      ensures canteenId == None <==> items == []
      ensures old(SingleCanteen(Snapshot())) ==> SingleCanteen(Snapshot())
      ensures old(SingleCanteen(Snapshot())) && items != [] ==> canteenId == old(canteenId)
      ensures !old(HasId(items, id)) ==>
                items == old(items) && subtotal == old(subtotal) && tax == old(tax) && total == old(total)
      ensures old(SingleCanteen(Snapshot())) && !old(HasId(items, id)) ==> Snapshot() == old(Snapshot())
    {
      ghost var before := Snapshot();
      RemoveConsistent(before, id);
      if !HasId(items, id) {
        RemoveAbsentKeepsLines(before, id);
      }
      if SingleCanteen(before) {
        RemoveSingleCanteen(before, id);
        if !HasId(items, id) {
          RemoveAbsentNoOp(before, id);
        }
      }
      var newItems := RemoveId(items, id);
      SetPriced(newItems);
      canteenId := if |newItems| > 0 then Some(newItems[0].canteenId) else None;
    }

    /** `updateQuantity`: sets the quantity of every line with the id, with no
        lower bound, and leaves the canteen alone. */
    method UpdateQuantity(id: string, qty: int)
      requires Valid()
      modifies this
      ensures Snapshot() == CartState.UpdateQuantity(old(Snapshot()), id, qty)
      ensures |items| == |old(items)| && canteenId == old(canteenId)
      ensures Valid()
      ensures old(SingleCanteen(Snapshot())) ==> SingleCanteen(Snapshot())
      ensures !old(HasId(items, id)) ==> Snapshot() == old(Snapshot())
    {
      ghost var before := Snapshot();
      UpdateConsistent(before, id, qty);
      if !HasId(items, id) {
        UpdateAbsentNoOp(before, id, qty);
      }
      SetPriced(SetQty(items, id, qty));
    }

    /** `clearCart`: back to the initial state, unconditionally. */
    method ClearCart()
      modifies this
      ensures Snapshot() == Clear(old(Snapshot())) && Snapshot() == Init
      ensures Valid() && SingleCanteen(Snapshot())
    {
      items, subtotal, tax, total, canteenId := [], 0.0, 0.0, 0.0, None;
    }
  }

  /** A client that uses only the store's contracts: two adds of one item,
      then a rejected add from another canteen, then two clears. */
  method TwoAddsThenConflict()
  {
    var cart := new Cart();
    var a := CartItem("a", "Dosa", 100.0, 7, "C1", None, Some(true));
    var b := CartItem("b", "Vada", 50.0, 1, "C2", None, None);
    assert b.canteenId != a.canteenId by { assert "C1"[1] != "C2"[1]; }
    AddTwiceThenConflict(a, b);
    var ok := cart.AddItem(a);
    assert cart.items == [a.(quantity := 1)] && cart.canteenId == Some("C1");
    assert cart.subtotal == 100.0 && cart.tax == 5.0 && cart.total == 105.0;
    ok := cart.AddItem(a);
    assert cart.items == [a.(quantity := 2)];
    assert cart.subtotal == 200.0 && cart.tax == 10.0 && cart.total == 210.0;
    ok := cart.AddItem(b);
    assert !ok && cart.items == [a.(quantity := 2)] && cart.total == 210.0;
    cart.ClearCart();
    cart.ClearCart();
    assert cart.Snapshot() == Init;
  }
}
