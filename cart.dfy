/**
 * The cart object `{ [productId]: quantity }` shared by the counter (POS) and the customer
 * menu (DigitalMenu). A JavaScript object keeps its keys in insertion order, so the cart is
 * an ordered list of lines with distinct ids: assigning to an existing key keeps its place,
 * a new key goes last, and `delete` drops the key.
 */
module Cart {
  import opened Wrappers
  import opened Types

  datatype Line = Line(id: string, qty: int)

  type Cart = seq<Line>

  function Ids(c: Cart): seq<string>
  {
    seq(|c|, i requires 0 <= i < |c| => c[i].id)
  }

  predicate Has(c: Cart, id: string)
  {
    id in Ids(c)
  }

  predicate DistinctIds(c: Cart)
  {
    forall i, j :: 0 <= i < j < |c| ==> c[i].id != c[j].id
  }

  /** `cart[id] || 0`: the quantity held for id, 0 when there is no such key. */
  function Qty(c: Cart, id: string): int
  {
    if |c| == 0 then 0 else if c[0].id == id then c[0].qty else Qty(c[1..], id)
  }

  /** How the key list, key test and distinctness of a cart relate to those of its tail. */
  lemma ConsFacts(l: Line, rest: Cart)
    ensures Ids([l] + rest) == [l.id] + Ids(rest)
    ensures forall k :: Has([l] + rest, k) <==> k == l.id || Has(rest, k)
    ensures DistinctIds([l] + rest) <==> DistinctIds(rest) && !Has(rest, l.id)
  {
    var r := [l] + rest;
    assert Ids(r) == [l.id] + Ids(rest);
    if DistinctIds(r) {
      DistinctTail(l, rest);
    }
    if DistinctIds(rest) && !Has(rest, l.id) {
      DistinctCons(l, rest);
    }
  }

  lemma DistinctTail(l: Line, rest: Cart)
    requires DistinctIds([l] + rest)
    ensures DistinctIds(rest) && !Has(rest, l.id)
  {
    var r := [l] + rest;
    forall i, j | 0 <= i < j < |rest|
      ensures rest[i].id != rest[j].id
    {
      assert r[i + 1].id != r[j + 1].id;
    }
    forall i | 0 <= i < |rest|
      ensures Ids(rest)[i] != l.id
    {
      assert r[i + 1].id != r[0].id;
    }
  }

  lemma DistinctCons(l: Line, rest: Cart)
    requires DistinctIds(rest) && !Has(rest, l.id)
    ensures DistinctIds([l] + rest)
  {
    var r := [l] + rest;
    forall i, j | 0 <= i < j < |r|
      ensures r[i].id != r[j].id
    {
      assert r[j] == rest[j - 1];
      if i > 0 {
        assert r[i] == rest[i - 1];
      } else {
        assert Ids(rest)[j - 1] == r[j].id;
      }
    }
  }

  /** `{ ...cart, [id]: q }`. */
  function Put(c: Cart, id: string, q: int): (r: Cart)
    ensures forall k :: Qty(r, k) == if k == id then q else Qty(c, k)
    ensures Ids(r) == if Has(c, id) then Ids(c) else Ids(c) + [id]
    ensures DistinctIds(c) ==> DistinctIds(r)
  {
    if |c| == 0 then [Line(id, q)]
    else
      assert c == [c[0]] + c[1..];
      ConsFacts(c[0], c[1..]);
      if c[0].id == id then
        var r := [Line(id, q)] + c[1..];
        ConsFacts(Line(id, q), c[1..]);
        r
      else
        var rest := Put(c[1..], id, q);
        var r := [c[0]] + rest;
        ConsFacts(c[0], rest);
        assert !Has(c, id) ==> Ids(r) == Ids(c) + [id] by {
          if !Has(c, id) {
            assert Ids(r) == [c[0].id] + (Ids(c[1..]) + [id]);
          }
        }
        r
  }

  /** After a put, the keys are the old keys and the one written. */
  lemma PutHas(c: Cart, id: string, q: int)
    ensures forall k :: Has(Put(c, id, q), k) <==> Has(c, k) || k == id
  {
    var r := Put(c, id, q);
    assert Ids(r) == if Has(c, id) then Ids(c) else Ids(c) + [id];
  }

  /** `delete cart[id]` on a copy. */
  function Remove(c: Cart, id: string): (r: Cart)
    ensures forall k :: Qty(r, k) == if k == id then 0 else Qty(c, k)
    ensures forall k :: Has(r, k) <==> Has(c, k) && k != id
    ensures forall i :: 0 <= i < |r| ==> r[i].id != id
    ensures DistinctIds(c) ==> DistinctIds(r)
    ensures DistinctIds(c) ==> |r| == if Has(c, id) then |c| - 1 else |c|
  {
    if |c| == 0 then []
    else
      var rest := Remove(c[1..], id);
      assert c == [c[0]] + c[1..];
      ConsFacts(c[0], c[1..]);
      if c[0].id == id then rest
      else
        var r := [c[0]] + rest;
        ConsFacts(c[0], rest);
        assert forall i :: 1 <= i < |r| ==> r[i] == rest[i - 1];
        r
  }

  /** `(cart[id] || 0) + 1` written back under id. */
  function Increment(c: Cart, id: string): (r: Cart)
    ensures forall k :: Qty(r, k) == if k == id then Qty(c, id) + 1 else Qty(c, k)
    ensures forall k :: Has(r, k) <==> Has(c, k) || k == id
  {
    PutHas(c, id, Qty(c, id) + 1);
    Put(c, id, Qty(c, id) + 1)
  }

  /** `if (newCart[id] > 1) newCart[id] -= 1; else delete newCart[id];` */
  function Decrement(c: Cart, id: string): (r: Cart)
    ensures forall k :: Qty(r, k) == if k == id && Qty(c, id) > 1 then Qty(c, id) - 1
                                     else if k == id then 0 else Qty(c, k)
    ensures Qty(c, id) <= 1 ==> !Has(r, id)
    ensures forall k :: k != id ==> (Has(r, k) <==> Has(c, k))
  {
    if Qty(c, id) > 1 then
      PutHas(c, id, Qty(c, id) - 1);
      Put(c, id, Qty(c, id) - 1)
    else Remove(c, id)
  }

  /** What one line contributes to the cart total: `prod ? prod.price * qty : 0`. */
  function LineValue(ps: seq<Product>, id: string, q: int): int
  {
    match FindProduct(ps, id)
    case Some(p) => p.price * q
    case None => 0
  }

  /** `cartTotal`: the current catalogue price times quantity, summed over the lines. */
  function Total(c: Cart, ps: seq<Product>): int
  {
    if |c| == 0 then 0 else LineValue(ps, c[0].id, c[0].qty) + Total(c[1..], ps)
  }

  /** `cartQuantity` / `cartItemsCount`: the quantities summed. */
  function Count(c: Cart): int
  {
    if |c| == 0 then 0 else c[0].qty + Count(c[1..])
  }

  /** The cost half of `createSaleObject`: cost price times quantity, summed over the lines. */
  function Cost(c: Cart, ps: seq<Product>): int
  {
    if |c| == 0 then 0
    else
      (match FindProduct(ps, c[0].id) case Some(p) => p.costPrice * c[0].qty case None => 0)
      + Cost(c[1..], ps)
  }

  lemma {:induction false} QtyAbsent(c: Cart, id: string)
    requires !Has(c, id)
    ensures Qty(c, id) == 0
  {
    if |c| > 0 {
      assert Ids(c) == [c[0].id] + Ids(c[1..]);
      QtyAbsent(c[1..], id);
    }
  }

  /** In a cart with distinct ids, a line's quantity is the cart's quantity for its id. */
  lemma {:induction false} QtyOfLine(c: Cart, k: nat)
    requires DistinctIds(c) && k < |c|
    ensures Qty(c, c[k].id) == c[k].qty
    decreases k
  {
    if k > 0 {
      QtyOfLine(c[1..], k - 1);
    }
  }

  /** Writing q under id changes the total by exactly the difference of that line's value. */
  lemma {:induction false} TotalPut(c: Cart, ps: seq<Product>, id: string, q: int)
    requires DistinctIds(c)
    ensures Total(Put(c, id, q), ps) == Total(c, ps) - LineValue(ps, id, Qty(c, id)) + LineValue(ps, id, q)
  {
    if |c| == 0 {
    } else if c[0].id == id {
      assert Ids(c) == [c[0].id] + Ids(c[1..]);
      QtyAbsent(c[1..], id);
    } else {
      TotalPut(c[1..], ps, id, q);
    }
  }

  /** Deleting a key takes exactly that line's value off the total. */
  lemma {:induction false} TotalRemove(c: Cart, ps: seq<Product>, id: string)
    requires DistinctIds(c)
    ensures Total(Remove(c, id), ps) == Total(c, ps) - LineValue(ps, id, Qty(c, id))
  {
    if |c| == 0 {
    } else if c[0].id == id {
      assert Ids(c) == [c[0].id] + Ids(c[1..]);
      QtyAbsent(c[1..], id);
      TotalRemove(c[1..], ps, id);
    } else {
      TotalRemove(c[1..], ps, id);
    }
  }

  /** Writing q under id changes the item count by q minus the old quantity. */
  lemma {:induction false} CountPut(c: Cart, id: string, q: int)
    requires DistinctIds(c)
    ensures Count(Put(c, id, q)) == Count(c) - Qty(c, id) + q
  {
    if |c| == 0 {
    } else if c[0].id == id {
      assert Ids(c) == [c[0].id] + Ids(c[1..]);
      QtyAbsent(c[1..], id);
    } else {
      CountPut(c[1..], id, q);
    }
  }

  /** Deleting a key takes its quantity off the item count. */
  lemma {:induction false} CountRemove(c: Cart, id: string)
    requires DistinctIds(c)
    ensures Count(Remove(c, id)) == Count(c) - Qty(c, id)
  {
    if |c| == 0 {
    } else if c[0].id == id {
      assert Ids(c) == [c[0].id] + Ids(c[1..]);
      QtyAbsent(c[1..], id);
      CountRemove(c[1..], id);
    } else {
      CountRemove(c[1..], id);
    }
  }

  predicate AllPositive(c: Cart)
  {
    forall i :: 0 <= i < |c| ==> c[i].qty >= 1
  }

  /** Writing a positive quantity keeps every quantity positive. */
  lemma {:induction false} PutPositive(c: Cart, id: string, q: int)
    requires AllPositive(c) && q >= 1
    ensures AllPositive(Put(c, id, q))
  {
    if |c| > 0 && c[0].id != id {
      PutPositive(c[1..], id, q);
      assert Put(c, id, q) == [c[0]] + Put(c[1..], id, q);
    }
  }

  /** With positive lines no quantity read from the cart is negative. */
  lemma {:induction false} QtyNonNegative(c: Cart, id: string)
    requires AllPositive(c)
    ensures Qty(c, id) >= 0
  {
    if |c| > 0 {
      QtyNonNegative(c[1..], id);
    }
  }

  /** Deleting a key keeps every remaining quantity positive. */
  lemma {:induction false} RemovePositive(c: Cart, id: string)
    requires AllPositive(c)
    ensures AllPositive(Remove(c, id))
  {
    if |c| > 0 {
      RemovePositive(c[1..], id);
      if c[0].id != id {
        assert Remove(c, id) == [c[0]] + Remove(c[1..], id);
      }
    }
  }

  /** With positive quantities the item count is zero exactly when the cart is empty. */
  lemma {:induction false} CountZeroIffEmpty(c: Cart)
    requires AllPositive(c)
    ensures Count(c) >= |c|
    ensures Count(c) == 0 <==> c == []
  {
    if |c| > 0 {
      CountZeroIffEmpty(c[1..]);
    }
  }

  /**
   * The sale lines built from a cart by `Object.entries(cart).map(...)`, one per line in
   * cart order with the product's current name, category, price and cost. The `!` after
   * `find` throws when a line's product is no longer in the catalogue: that is the error.
   */
  function ToItems(c: Cart, ps: seq<Product>): (r: Result<seq<SaleItem>, string>)
    ensures r.Ok? <==> forall i :: 0 <= i < |c| ==> FindProduct(ps, c[i].id).Some?
    ensures r.Err? ==> Has(c, r.error) && FindProduct(ps, r.error).None?
    ensures r.Ok? ==> |r.value| == |c| && forall i :: 0 <= i < |c| ==>
              var p := FindProduct(ps, c[i].id).value;
              r.value[i] == SaleItem(c[i].id, p.name, p.category, c[i].qty, p.price, p.costPrice)
  {
    if |c| == 0 then Ok([])
    else
      assert Ids(c) == [c[0].id] + Ids(c[1..]);
      match FindProduct(ps, c[0].id)
      case None => Err(c[0].id)
      case Some(p) =>
        match ToItems(c[1..], ps)
        case Err(e) => Err(e)
        case Ok(rest) =>
          var r := [SaleItem(c[0].id, p.name, p.category, c[0].qty, p.price, p.costPrice)] + rest;
          forall i | 0 <= i < |c|
            ensures r[i] == var p := FindProduct(ps, c[i].id).value;
                            SaleItem(c[i].id, p.name, p.category, c[i].qty, p.price, p.costPrice)
          {
            if i > 0 {
              assert r[i] == rest[i - 1] && c[i] == c[1..][i - 1];
            }
          }
          Ok(r)
  }

  /** The lines' stated total equals the cart total, and their cost the cart cost. */
  lemma {:induction false} ItemsMatchCart(c: Cart, ps: seq<Product>)
    requires ToItems(c, ps).Ok?
    ensures ItemsTotal(ToItems(c, ps).value) == Total(c, ps)
    ensures ItemsCost(ToItems(c, ps).value) == Cost(c, ps)
  {
    if |c| > 0 {
      var items := ToItems(c, ps).value;
      assert ToItems(c[1..], ps).Ok?;
      ItemsMatchCart(c[1..], ps);
      assert items[1..] == ToItems(c[1..], ps).value;
    }
  }
}
