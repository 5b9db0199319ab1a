/** Line items of the canteen cart and the pure list operations the cart
    store's commands are built from: `find`, the two `map`s, `filter`, the
    left `reduce` that prices a list, and the 5% tax. */
module CartItems {

  datatype Option<T> = None | Some(value: T)

  /** One line of the cart. `price` is a JavaScript number, modelled as an
      exact real; `quantity` is an integer that `updateQuantity` may set to
      zero or below. The two optional display fields are carried along. */
  datatype CartItem = CartItem(
    id: string,
    name: string,
    price: real,
    quantity: int,
    canteenId: string,
    imageUrl: Option<string>,
    isVeg: Option<bool>)

  /** `i.price * i.quantity` */
  function LineTotal(i: CartItem): real
  {
    i.price * i.quantity as real
  }

  /** `items.reduce((sum, i) => sum + i.price * i.quantity, 0)`: a fold that
      starts at 0 and adds the lines from left to right. */
  function Subtotal(s: seq<CartItem>): real
  {
    if s == [] then 0.0 else Subtotal(s[..|s| - 1]) + LineTotal(s[|s| - 1])
  }

  /** The 5% GST charged on the subtotal. */
  function Tax(subtotal: real): real
  {
    subtotal * 0.05
  }

  /** `subtotal + tax`: the amount charged. */
  function Total(subtotal: real): real
  {
    subtotal + Tax(subtotal)
  }

  predicate HasId(s: seq<CartItem>, id: string)
  {
    exists k :: 0 <= k < |s| && s[k].id == id
  }

  /** No two lines of the list share an id. */
  predicate UniqueIds(s: seq<CartItem>)
  {
    forall i, j :: 0 <= i < j < |s| ==> s[i].id != s[j].id
  }

  /** `items.find((i) => i.id === id)`: the first line with that id. */
  function Find(s: seq<CartItem>, id: string): (r: Option<CartItem>)
    ensures r.Some? <==> HasId(s, id)
    ensures r.Some? ==> exists k :: 0 <= k < |s| && s[k] == r.value && r.value.id == id &&
                          forall j :: 0 <= j < k ==> s[j].id != id
  {
    if s == [] then None
    else if s[0].id == id then
      Some(s[0])
    else
      var r := Find(s[1..], id);
      assert HasId(s, id) ==> HasId(s[1..], id) by {
        if HasId(s, id) {
          var k :| 0 <= k < |s| && s[k].id == id;
          assert s[1..][k - 1].id == id;
        }
      }
      assert r.Some? ==> exists k :: 0 <= k < |s| && s[k] == r.value && r.value.id == id &&
                           forall j :: 0 <= j < k ==> s[j].id != id by {
        if r.Some? {
          var k :| 0 <= k < |s| - 1 && s[1..][k] == r.value && r.value.id == id &&
                   forall j :: 0 <= j < k ==> s[1..][j].id != id;
          assert forall j :: 0 <= j < k + 1 ==> s[j].id != id by {
            forall j | 0 <= j < k + 1 ensures s[j].id != id {
              if j > 0 { assert s[j] == s[1..][j - 1]; }
            }
          }
          assert s[k + 1] == r.value;
        }
      }
      r
  }

  /** `items.map((i) => i.id === id ? { ...i, quantity: i.quantity + 1 } : i)` */
  function IncrementId(s: seq<CartItem>, id: string): (r: seq<CartItem>)
    ensures |r| == |s|
    ensures forall k :: 0 <= k < |s| ==>
              r[k] == if s[k].id == id then s[k].(quantity := s[k].quantity + 1) else s[k]
  {
    if s == [] then []
    else
      var head := if s[0].id == id then s[0].(quantity := s[0].quantity + 1) else s[0];
      [head] + IncrementId(s[1..], id)
  }

  /** `items.map((i) => i.id === id ? { ...i, quantity: qty } : i)` */
  function SetQty(s: seq<CartItem>, id: string, qty: int): (r: seq<CartItem>)
    ensures |r| == |s|
    ensures forall k :: 0 <= k < |s| ==>
              r[k] == if s[k].id == id then s[k].(quantity := qty) else s[k]
  {
    if s == [] then []
    else
      var head := if s[0].id == id then s[0].(quantity := qty) else s[0];
      [head] + SetQty(s[1..], id, qty)
  }

  /** `items.filter((i) => i.id !== id)` */
  function RemoveId(s: seq<CartItem>, id: string): (r: seq<CartItem>)
    ensures |r| <= |s|
    ensures forall x :: x in r <==> x in s && x.id != id
  {
    if s == [] then []
    else if s[0].id == id then RemoveId(s[1..], id)
    else [s[0]] + RemoveId(s[1..], id)
  }

  // ---------------------------------------------------------------------
  // Pricing the list

  /** The fold distributes over concatenation. */
  lemma {:induction false} SubtotalAppend(a: seq<CartItem>, b: seq<CartItem>)
    ensures Subtotal(a + b) == Subtotal(a) + Subtotal(b)
    decreases |b|
  {
    if b == [] {
      assert a + b == a;
    } else {
      var n := |a + b|;
      assert (a + b)[..n - 1] == a + b[..|b| - 1];
      assert (a + b)[n - 1] == b[|b| - 1];
      SubtotalAppend(a, b[..|b| - 1]);
    }
  }

  /** Replacing one line changes the subtotal by exactly the difference of the
      two line totals. */
  lemma {:induction false} SubtotalReplace(s: seq<CartItem>, k: nat, x: CartItem)
    requires k < |s|
    ensures Subtotal(s[k := x]) == Subtotal(s) - LineTotal(s[k]) + LineTotal(x)
    decreases |s|
  {
    var n, r := |s|, s[k := x];
    if k == n - 1 {
      assert r[..n - 1] == s[..n - 1];
    } else {
      assert r[..n - 1] == s[..n - 1][k := x];
      SubtotalReplace(s[..n - 1], k, x);
    }
  }

  /** Dropping one line lowers the subtotal by exactly that line's total. */
  lemma {:induction false} SubtotalDrop(s: seq<CartItem>, k: nat)
    requires k < |s|
    ensures Subtotal(s[..k] + s[k + 1..]) == Subtotal(s) - LineTotal(s[k])
    decreases |s|
  {
    var n, r := |s|, s[..k] + s[k + 1..];
    var init := s[..n - 1];
    if k == n - 1 {
      assert r == init;
    } else {
      assert r[..n - 2] == init[..k] + init[k + 1..];
      assert r[n - 2] == s[n - 1];
      SubtotalDrop(init, k);
    }
  }

  /** One more unit of a line adds exactly its price to the line's total. */
  lemma LineTotalIncrement(x: CartItem)
    ensures LineTotal(x.(quantity := x.quantity + 1)) == LineTotal(x) + x.price
  {
    assert (x.quantity + 1) as real == x.quantity as real + 1.0;
  }

  /** One more unit on one line adds exactly that line's price to the
      subtotal. */
  lemma SubtotalBump(s: seq<CartItem>, k: nat)
    requires k < |s|
    ensures Subtotal(s[k := s[k].(quantity := s[k].quantity + 1)]) == Subtotal(s) + s[k].price
  {
    SubtotalReplace(s, k, s[k].(quantity := s[k].quantity + 1));
    LineTotalIncrement(s[k]);
  }

  // ---------------------------------------------------------------------
  // The keyed map and the filter on a list with unique ids

  lemma IncrementAt(s: seq<CartItem>, id: string, k: nat)
    requires UniqueIds(s) && k < |s| && s[k].id == id
    ensures IncrementId(s, id) == s[k := s[k].(quantity := s[k].quantity + 1)]
  {
    var r := IncrementId(s, id);
    assert forall j :: 0 <= j < |s| && j != k ==> s[j].id != id;
    assert forall j :: 0 <= j < |s| ==> r[j] == s[k := s[k].(quantity := s[k].quantity + 1)][j];
  }

  /** On a list with unique ids, the keyed increment raises the subtotal by
      the price of the one line it changes. */
  lemma SubtotalIncrement(s: seq<CartItem>, id: string, k: nat)
    requires UniqueIds(s) && k < |s| && s[k].id == id
    ensures Subtotal(IncrementId(s, id)) == Subtotal(s) + s[k].price
  {
    IncrementAt(s, id, k);
    SubtotalBump(s, k);
  }

  lemma SetQtyAt(s: seq<CartItem>, id: string, qty: int, k: nat)
    requires UniqueIds(s) && k < |s| && s[k].id == id
    ensures SetQty(s, id, qty) == s[k := s[k].(quantity := qty)]
  {
    var r := SetQty(s, id, qty);
    assert forall j :: 0 <= j < |s| && j != k ==> s[j].id != id;
    assert forall j :: 0 <= j < |s| ==> r[j] == s[k := s[k].(quantity := qty)][j];
  }

  /** The filter keeps the surviving lines in their order: it distributes over
      concatenation. */
  lemma {:induction false} RemoveIdAppend(a: seq<CartItem>, b: seq<CartItem>, id: string)
    ensures RemoveId(a + b, id) == RemoveId(a, id) + RemoveId(b, id)
    decreases |a|
  {
    if a == [] {
      assert a + b == b;
    } else {
      assert (a + b)[0] == a[0];
      assert (a + b)[1..] == a[1..] + b;
      RemoveIdAppend(a[1..], b, id);
    }
  }

  /** Filtering out an id the list does not hold returns the list itself. */
  lemma {:induction false} RemoveAbsent(s: seq<CartItem>, id: string)
    requires !HasId(s, id)
    ensures RemoveId(s, id) == s
    decreases |s|
  {
    if s != [] {
      assert s[0].id != id;
      assert !HasId(s[1..], id);
      RemoveAbsent(s[1..], id);
      calc {
        RemoveId(s, id);
        [s[0]] + RemoveId(s[1..], id);
        [s[0]] + s[1..];
        s;
      }
    }
  }

  /** On a list with unique ids, removing a present id drops exactly its line
      and keeps the others in order. */
  lemma RemoveAt(s: seq<CartItem>, id: string, k: nat)
    requires UniqueIds(s) && k < |s| && s[k].id == id
    ensures RemoveId(s, id) == s[..k] + s[k + 1..]
  {
    var pre, post := s[..k], s[k + 1..];
    assert s == pre + ([s[k]] + post);
    assert forall j :: 0 <= j < |pre| ==> pre[j] == s[j];
    assert forall j :: 0 <= j < |post| ==> post[j] == s[k + 1 + j];
    RemoveAbsent(pre, id);
    RemoveAbsent(post, id);
    RemoveIdAppend(pre, [s[k]] + post, id);
    assert ([s[k]] + post)[1..] == post;
  }

  // ---------------------------------------------------------------------
  // Unique ids are preserved by every list operation the store uses

  lemma AppendKeepsUnique(s: seq<CartItem>, x: CartItem)
    requires UniqueIds(s) && !HasId(s, x.id)
    ensures UniqueIds(s + [x])
  {
    var t := s + [x];
    forall i, j | 0 <= i < j < |t| ensures t[i].id != t[j].id {
      if j == |s| {
        assert t[i] == s[i];
      }
    }
  }

  lemma UniqueTail(s: seq<CartItem>)
    requires UniqueIds(s) && s != []
    ensures UniqueIds(s[1..])
    ensures forall y :: y in s[1..] ==> y.id != s[0].id
  {
    var tail := s[1..];
    forall i, j | 0 <= i < j < |tail| ensures tail[i].id != tail[j].id {
      assert tail[i] == s[i + 1] && tail[j] == s[j + 1];
    }
    forall y | y in tail ensures y.id != s[0].id {
      var m :| 0 <= m < |tail| && tail[m] == y;
      assert s[m + 1] == y;
    }
  }

  lemma UniqueCons(x: CartItem, t: seq<CartItem>)
    requires UniqueIds(t) && forall y :: y in t ==> y.id != x.id
    ensures UniqueIds([x] + t)
  {
    var r := [x] + t;
    forall i, j | 0 <= i < j < |r| ensures r[i].id != r[j].id {
      assert r[j] == t[j - 1];
      if i == 0 {
        assert t[j - 1] in t;
      } else {
        assert r[i] == t[i - 1];
      }
    }
  }

  lemma {:induction false} RemoveKeepsUnique(s: seq<CartItem>, id: string)
    requires UniqueIds(s)
    ensures UniqueIds(RemoveId(s, id))
    decreases |s|
  {
    if s != [] {
      UniqueTail(s);
      RemoveKeepsUnique(s[1..], id);
      if s[0].id != id {
        UniqueCons(s[0], RemoveId(s[1..], id));
      }
    }
  }
}
