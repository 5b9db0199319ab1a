/** The cart store's state as a value, and each of its four commands as a
    transition from the old state to the new one. The store's methods are
    specified by these functions; the lemmas here state the invariants the
    commands keep. */
module CartState {
  import opened CartItems

  datatype State = State(
    items: seq<CartItem>,
    canteenId: Option<string>,
    subtotal: real,
    tax: real,
    total: real)

  /** The store's initial value: no lines, no canteen, all totals 0. */
  const Init: State := State([], None, 0.0, 0.0, 0.0)

  /** The guard `canteenId && canteenId !== item.canteen_id`. A JavaScript
      string is falsy when it is empty, so a cart whose canteen id is the
      empty string rejects nothing. */
  predicate Rejects(canteenId: Option<string>, canteen: string)
  {
    canteenId.Some? && canteenId.value != "" && canteenId.value != canteen
  }

  /** A state whose three money fields are recomputed from `items` by a full
      reduction. */
  function Priced(items: seq<CartItem>, canteenId: Option<string>): State
  {
    var subtotal := Subtotal(items);
    State(items, canteenId, subtotal, Tax(subtotal), Total(subtotal))
  }

  /** The new list of an accepted `addItem`: the keyed merge. */
  function Merged(items: seq<CartItem>, item: CartItem): seq<CartItem>
  {
    if Find(items, item.id).Some? then IncrementId(items, item.id)
    else items + [item.(quantity := 1)]
  }

  function Add(s: State, item: CartItem): State
  {
    if Rejects(s.canteenId, item.canteenId) then s
    else Priced(Merged(s.items, item), Some(item.canteenId))
  }

  function Remove(s: State, id: string): State
  {
    var rest := RemoveId(s.items, id);
    Priced(rest, if |rest| > 0 then Some(rest[0].canteenId) else None)
  }

  function UpdateQuantity(s: State, id: string, qty: int): State
  {
    Priced(SetQty(s.items, id, qty), s.canteenId)
  }

  function Clear(s: State): State
  {
    State([], None, 0.0, 0.0, 0.0)
  }

  /** The derived totals match the items. */
  predicate TotalsMatch(s: State)
  {
    s.subtotal == Subtotal(s.items) && s.tax == Tax(s.subtotal) && s.total == Total(s.subtotal)
  }

  /** What every command keeps: the totals match, ids are unique, and there
      is a canteen exactly when there are lines. */
  predicate Consistent(s: State)
  {
    TotalsMatch(s) && UniqueIds(s.items) && (s.canteenId.None? <==> |s.items| == 0)
  }

  /** Every line belongs to the cart's canteen. */
  predicate SingleCanteen(s: State)
  {
    forall k :: 0 <= k < |s.items| ==> s.canteenId == Some(s.items[k].canteenId)
  }

  // ---------------------------------------------------------------------
  // addItem

  lemma AddConsistent(s: State, item: CartItem)
    requires Consistent(s)
    ensures Consistent(Add(s, item))
  {
    if !Rejects(s.canteenId, item.canteenId) {
      if Find(s.items, item.id).Some? {
        assert UniqueIds(IncrementId(s.items, item.id));
      } else {
        AppendKeepsUnique(s.items, item.(quantity := 1));
      }
    }
  }

  /** Adding an id the cart holds raises exactly that line's quantity by one,
      keeps its stored name, price and other fields, and raises the subtotal
      by that line's stored price. */
  lemma AddExisting(s: State, item: CartItem, k: nat)
    requires TotalsMatch(s) && UniqueIds(s.items) && !Rejects(s.canteenId, item.canteenId)
    requires k < |s.items| && s.items[k].id == item.id
    ensures Add(s, item).items == s.items[k := s.items[k].(quantity := s.items[k].quantity + 1)]
    ensures Add(s, item).subtotal == s.subtotal + s.items[k].price
    ensures Add(s, item).canteenId == Some(item.canteenId)
  {
    assert HasId(s.items, item.id);
    IncrementAt(s.items, item.id, k);
    SubtotalIncrement(s.items, item.id, k);
    assert Merged(s.items, item) == IncrementId(s.items, item.id);
  }

  /** Adding a new id appends one line with quantity 1, whatever quantity was
      passed in, and raises the subtotal by the item's price. */
  lemma AddNew(s: State, item: CartItem)
    requires Consistent(s) && !Rejects(s.canteenId, item.canteenId)
    requires !HasId(s.items, item.id)
    ensures Add(s, item).items == s.items + [item.(quantity := 1)]
    ensures |Add(s, item).items| == |s.items| + 1
    ensures Add(s, item).subtotal == s.subtotal + item.price
    ensures Add(s, item).canteenId == Some(item.canteenId)
  {
    var line := item.(quantity := 1);
    SubtotalAppend(s.items, [line]);
    assert Subtotal([line]) == LineTotal(line) by { assert [line][..0] == []; }
  }

  /** The keyed merge of an item into lines of its own canteen gives lines
      of that canteen only. */
  lemma MergedInCanteen(items: seq<CartItem>, item: CartItem)
    requires forall k :: 0 <= k < |items| ==> items[k].canteenId == item.canteenId
    ensures forall k :: 0 <= k < |Merged(items, item)| ==> Merged(items, item)[k].canteenId == item.canteenId
  {
    var merged := Merged(items, item);
    if Find(items, item.id).None? {
      assert forall k :: 0 <= k < |items| ==> merged[k] == items[k];
    }
  }

  /** An add keeps every line in the cart's canteen, unless the cart's canteen
      id is the empty string and the item comes from another canteen. */
  lemma AddSingleCanteen(s: State, item: CartItem)
    requires SingleCanteen(s)
    requires s.canteenId == Some("") ==> item.canteenId == ""
    ensures SingleCanteen(Add(s, item))
  {
    if !Rejects(s.canteenId, item.canteenId) {
      assert forall k :: 0 <= k < |s.items| ==> s.items[k].canteenId == item.canteenId;
      MergedInCanteen(s.items, item);
    }
  }

  /** The empty-string canteen id is falsy, so it lets an item of another
      canteen into the cart: the resulting cart mixes two canteens. */
  lemma EmptyCanteenAdmitsMix(a: CartItem, b: CartItem)
    requires a.canteenId == "" && b.canteenId != "" && a.id != b.id
    ensures !Rejects(Add(Init, a).canteenId, b.canteenId)
    ensures |Add(Add(Init, a), b).items| == 2
    ensures !SingleCanteen(Add(Add(Init, a), b))
  {
    var s1 := Add(Init, a);
    assert s1.items == [a.(quantity := 1)];
    assert !HasId(s1.items, b.id);
    var s2 := Add(s1, b);
    assert s2.items == [a.(quantity := 1), b.(quantity := 1)];
    assert s2.canteenId != Some(s2.items[0].canteenId);
  }

  /** From an empty cart: one add gives one line of quantity 1 priced at the
      item's price, a second add of the same item doubles it, and an add from
      another canteen is then rejected. */
  lemma AddTwiceThenConflict(a: CartItem, b: CartItem)
    requires a.canteenId != "" && b.canteenId != a.canteenId
    ensures Add(Init, a).items == [a.(quantity := 1)]
    ensures Add(Init, a).subtotal == a.price && Add(Init, a).canteenId == Some(a.canteenId)
    ensures Add(Add(Init, a), a).items == [a.(quantity := 2)]
    ensures Add(Add(Init, a), a).subtotal == 2.0 * a.price
    ensures Add(Add(Add(Init, a), a), b) == Add(Add(Init, a), a)
  {
    assert Consistent(Init);
    var s1 := Add(Init, a);
    AddNew(Init, a);
    AddConsistent(Init, a);
    AddExisting(s1, a, 0);
    var s2 := Add(s1, a);
    assert Rejects(s2.canteenId, b.canteenId);
  }

  // ---------------------------------------------------------------------
  // A sequence of adds from one canteen

  /** The state after calling `addItem` on each of `xs` in turn. */
  function AddAll(s: State, xs: seq<CartItem>): State
  {
    if xs == [] then s else Add(AddAll(s, xs[..|xs| - 1]), xs[|xs| - 1])
  }

  /** How many of `xs` carry the id. */
  function Count(xs: seq<CartItem>, id: string): nat
  {
    if xs == [] then 0
    else Count(xs[..|xs| - 1], id) + if xs[|xs| - 1].id == id then 1 else 0
  }

  lemma {:induction false} CountPositive(xs: seq<CartItem>, id: string)
    requires Count(xs, id) > 0
    ensures exists j :: 0 <= j < |xs| && xs[j].id == id
    decreases |xs|
  {
    var init := xs[..|xs| - 1];
    if xs[|xs| - 1].id != id {
      CountPositive(init, id);
      var j :| 0 <= j < |init| && init[j].id == id;
      assert xs[j] == init[j];
    }
  }

  lemma CountSnoc(xs: seq<CartItem>, x: CartItem, id: string)
    ensures Count(xs + [x], id) == Count(xs, id) + if x.id == id then 1 else 0
  {
    assert (xs + [x])[..|xs|] == xs;
  }

  /** Every line's quantity is the number of times its id was added, and every
      added id has a line. */
  predicate Tallies(s: State, xs: seq<CartItem>)
  {
    && (forall j :: 0 <= j < |xs| ==> HasId(s.items, xs[j].id))
    && (forall k :: 0 <= k < |s.items| ==> s.items[k].quantity == Count(xs, s.items[k].id))
  }

  /** An accepted add of an id the cart holds keeps the tally. */
  lemma TallyExisting(s: State, xs: seq<CartItem>, x: CartItem, k: nat)
    requires Consistent(s) && !Rejects(s.canteenId, x.canteenId) && Tallies(s, xs)
    requires k < |s.items| && s.items[k].id == x.id
    ensures Tallies(Add(s, x), xs + [x])
  {
    var r, ys := Add(s, x), xs + [x];
    AddExisting(s, x, k);
    forall id { CountSnoc(xs, x, id); }
    forall j | 0 <= j < |ys| ensures HasId(r.items, ys[j].id) {
      if j < |xs| {
        var m :| 0 <= m < |s.items| && s.items[m].id == xs[j].id;
        assert r.items[m].id == ys[j].id;
      } else {
        assert r.items[k].id == ys[j].id;
      }
    }
    forall m | 0 <= m < |r.items| ensures r.items[m].quantity == Count(ys, r.items[m].id) {
      if m != k {
        assert s.items[m].id != x.id;
      }
    }
  }

  /** An accepted add of a new id keeps the tally: the id was never added
      before, so its count is the new line's quantity 1. */
  lemma TallyNew(s: State, xs: seq<CartItem>, x: CartItem)
    requires Consistent(s) && !Rejects(s.canteenId, x.canteenId) && Tallies(s, xs)
    requires !HasId(s.items, x.id)
    ensures Tallies(Add(s, x), xs + [x])
  {
    var r, ys := Add(s, x), xs + [x];
    AddNew(s, x);
    forall id { CountSnoc(xs, x, id); }
    if Count(xs, x.id) > 0 {
      CountPositive(xs, x.id);
    }
    forall j | 0 <= j < |ys| ensures HasId(r.items, ys[j].id) {
      if j < |xs| {
        var m :| 0 <= m < |s.items| && s.items[m].id == xs[j].id;
        assert r.items[m].id == ys[j].id;
      } else {
        assert r.items[|s.items|].id == ys[j].id;
      }
    }
    forall m | 0 <= m < |r.items| ensures r.items[m].quantity == Count(ys, r.items[m].id) {
      if m < |s.items| {
        assert r.items[m] == s.items[m];
        assert s.items[m].id != x.id;
      }
    }
  }

  /** An add from the canteen the cart is in, or into an empty cart, is
      accepted, keeps both invariants and leaves the cart in that canteen. */
  lemma AddSameCanteen(s: State, x: CartItem)
    requires Consistent(s) && SingleCanteen(s)
    requires s.canteenId == None || s.canteenId == Some(x.canteenId)
    ensures !Rejects(s.canteenId, x.canteenId)
    ensures Consistent(Add(s, x)) && SingleCanteen(Add(s, x))
    ensures Add(s, x).canteenId == Some(x.canteenId)
  {
    AddConsistent(s, x);
    AddSingleCanteen(s, x);
  }

  /** From an empty cart, adding items of one canteen is never rejected and
      keeps both invariants, with the cart in that canteen. */
  lemma {:induction false} OneCanteenAdds(xs: seq<CartItem>, c: string)
    requires forall j :: 0 <= j < |xs| ==> xs[j].canteenId == c
    ensures Consistent(AddAll(Init, xs)) && SingleCanteen(AddAll(Init, xs))
    ensures AddAll(Init, xs).canteenId == if xs == [] then None else Some(c)
    decreases |xs|
  {
    if xs != [] {
      var init, x := xs[..|xs| - 1], xs[|xs| - 1];
      OneCanteenAdds(init, c);
      var s := AddAll(Init, init);
      assert AddAll(Init, xs) == Add(s, x);
      AddSameCanteen(s, x);
    }
  }

  /** From an empty cart, adding items of one canteen yields one line per
      distinct id, each holding as quantity the number of times its id was
      added. */
  lemma {:induction false} OneCanteenTallies(xs: seq<CartItem>, c: string)
    requires forall j :: 0 <= j < |xs| ==> xs[j].canteenId == c
    ensures Tallies(AddAll(Init, xs), xs)
    decreases |xs|
  {
    if xs != [] {
      var init, x := xs[..|xs| - 1], xs[|xs| - 1];
      assert xs == init + [x];
      OneCanteenTallies(init, c);
      OneCanteenAdds(init, c);
      var s := AddAll(Init, init);
      assert AddAll(Init, xs) == Add(s, x);
      assert !Rejects(s.canteenId, x.canteenId);
      if Find(s.items, x.id).Some? {
        var k :| 0 <= k < |s.items| && s.items[k].id == x.id;
        TallyExisting(s, init, x, k);
      } else {
        TallyNew(s, init, x);
      }
    }
  }

  // ---------------------------------------------------------------------
  // removeItem

  lemma RemoveConsistent(s: State, id: string)
    requires Consistent(s)
    ensures Consistent(Remove(s, id))
    ensures !HasId(Remove(s, id).items, id)
  {
    RemoveKeepsUnique(s.items, id);
  }

  /** Removing an id the cart holds drops exactly its line, keeps the others
      in order and lowers the subtotal by that line's total. */
  lemma RemoveExisting(s: State, id: string, k: nat)
    requires Consistent(s) && k < |s.items| && s.items[k].id == id
    ensures Remove(s, id).items == s.items[..k] + s.items[k + 1..]
    ensures Remove(s, id).subtotal == s.subtotal - LineTotal(s.items[k])
  {
    RemoveAt(s.items, id, k);
    SubtotalDrop(s.items, k);
  }

  /** Under the single-canteen invariant the re-derived canteen id is the old
      one whenever lines remain, and the invariant is kept. */
  lemma RemoveSingleCanteen(s: State, id: string)
    requires Consistent(s) && SingleCanteen(s)
    ensures SingleCanteen(Remove(s, id))
    ensures Remove(s, id).items != [] ==> Remove(s, id).canteenId == s.canteenId
    ensures Remove(s, id).items == [] <==> Remove(s, id).canteenId == None
  {
    var r := Remove(s, id);
    if r.items != [] {
      assert r.items[0] in s.items;
      forall k | 0 <= k < |r.items| ensures r.canteenId == Some(r.items[k].canteenId) {
        assert r.items[k] in s.items;
      }
    }
  }

  /** Removing an id the cart does not hold keeps the lines and the totals,
      whatever canteens the lines belong to. */
  lemma RemoveAbsentKeepsLines(s: State, id: string)
    requires Consistent(s) && !HasId(s.items, id)
    ensures Remove(s, id).items == s.items
    ensures Remove(s, id).subtotal == s.subtotal
    ensures Remove(s, id).tax == s.tax && Remove(s, id).total == s.total
  {
    RemoveAbsent(s.items, id);
  }

  /** Removing an id the cart does not hold leaves the whole state unchanged
      exactly when the cart is empty or its canteen is already that of its
      first line, since the canteen is re-derived from the first line. */
  lemma RemoveAbsentNoOpIff(s: State, id: string)
    requires Consistent(s) && !HasId(s.items, id)
    ensures Remove(s, id) == s <==> (s.items == [] || s.canteenId == Some(s.items[0].canteenId))
  {
    RemoveAbsentKeepsLines(s, id);
  }

  /** Removing an id a one-canteen cart does not hold changes nothing. */
  lemma RemoveAbsentNoOp(s: State, id: string)
    requires Consistent(s) && SingleCanteen(s) && !HasId(s.items, id)
    ensures Remove(s, id) == s
  {
    RemoveAbsentKeepsLines(s, id);
    if s.items != [] {
      assert s.canteenId == Some(s.items[0].canteenId);
    }
  }

  // ---------------------------------------------------------------------
  // updateQuantity

  /** Setting a quantity keeps the list's length, order, ids and every other
      field, and the cart's canteen; it keeps both invariants. */
  lemma UpdateConsistent(s: State, id: string, qty: int)
    requires Consistent(s)
    ensures Consistent(UpdateQuantity(s, id, qty))
    ensures SingleCanteen(s) ==> SingleCanteen(UpdateQuantity(s, id, qty))
  {
    var r := UpdateQuantity(s, id, qty);
    assert forall k :: 0 <= k < |r.items| ==> r.items[k].id == s.items[k].id;
    assert forall k :: 0 <= k < |r.items| ==> r.items[k].canteenId == s.items[k].canteenId;
    assert s.items == [] <==> r.items == [];
  }

  /** Setting the quantity of a held id replaces that line's total by the
      total at the new quantity; zero and negative quantities are accepted. */
  lemma UpdateExisting(s: State, id: string, qty: int, k: nat)
    requires Consistent(s) && k < |s.items| && s.items[k].id == id
    ensures UpdateQuantity(s, id, qty).items == s.items[k := s.items[k].(quantity := qty)]
    ensures UpdateQuantity(s, id, qty).subtotal
              == s.subtotal - LineTotal(s.items[k]) + LineTotal(s.items[k].(quantity := qty))
  {
    SetQtyAt(s.items, id, qty, k);
    SubtotalReplace(s.items, k, s.items[k].(quantity := qty));
  }

  /** Setting the quantity of an id the cart does not hold changes nothing. */
  lemma UpdateAbsentNoOp(s: State, id: string, qty: int)
    requires Consistent(s) && !HasId(s.items, id)
    ensures UpdateQuantity(s, id, qty) == s
  {
    var r := UpdateQuantity(s, id, qty);
    assert forall k :: 0 <= k < |s.items| ==> s.items[k].id != id;
    assert r.items == s.items;
  }

  // ---------------------------------------------------------------------
  // clearCart

  /** Clearing yields the initial state from any state, so it is idempotent
      and restores both invariants. */
  lemma ClearResets(s: State)
    ensures Clear(s) == Init && Clear(Clear(s)) == Clear(s)
    ensures Consistent(Clear(s)) && SingleCanteen(Clear(s))
  {
  }
}
