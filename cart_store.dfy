/**
 * The persisted shopping cart (src/store/cartStore.ts): a list of lines
 * keyed by product id. The store's `set()` replaces the whole list, so the
 * class below keeps the list in one `seq` field that each mutator
 * reassigns; the functions in the module say what each mutator computes.
 */
module CartStore {
  import opened Domain

  // ---------------------------------------------------------------------
  // What the mutators compute

  /** `items.find(i => i.product.id === id)`, as the index of the first match. */
  function FindLine(items: seq<CartLine>, id: string): (r: Option<nat>)
    ensures r.Some? ==> r.value < |items|
  {
    if items == [] then None
    else if items[0].product.id == id then Some(0)
    else match FindLine(items[1..], id)
      case None => None
      case Some(k) => Some(k + 1)
  }

  /** `items.map(i => i.product.id === id ? { ...i, quantity: q } : i)`. */
  function SetQuantity(items: seq<CartLine>, id: string, q: int): seq<CartLine>
  {
    if items == [] then []
    else
      var head := if items[0].product.id == id then items[0].(quantity := q) else items[0];
      [head] + SetQuantity(items[1..], id, q)
  }

  /** `items.filter(i => i.product.id !== id)`. */
  function WithoutProduct(items: seq<CartLine>, id: string): seq<CartLine>
  {
    if items == [] then []
    else if items[0].product.id == id then WithoutProduct(items[1..], id)
    else [items[0]] + WithoutProduct(items[1..], id)
  }

  /** The list `addItem(product, quantity)` leaves behind. */
  function WithAdded(items: seq<CartLine>, product: Product, quantity: int): seq<CartLine>
  {
    match FindLine(items, product.id)
    case Some(k) =>
      var newQty := items[k].quantity + quantity;
      if newQty > product.stock then items else SetQuantity(items, product.id, newQty)
    case None =>
      if quantity > product.stock then items else items + [CartLine(product, quantity)]
  }

  /** The list `updateQuantity(id, quantity)` leaves behind. */
  function WithQuantity(items: seq<CartLine>, id: string, quantity: int): seq<CartLine>
  {
    if quantity <= 0 then WithoutProduct(items, id) else SetQuantity(items, id, quantity)
  }

  /** `getTotalItems`: the sum of the quantities. */
  function TotalItems(items: seq<CartLine>): int
  {
    if items == [] then 0 else items[0].quantity + TotalItems(items[1..])
  }

  /** `getTotalPrice`: the sum of price times quantity, in cents. */
  function TotalPrice(items: seq<CartLine>): int
  {
    if items == [] then 0
    else items[0].product.price * items[0].quantity + TotalPrice(items[1..])
  }

  // ---------------------------------------------------------------------
  // Invariants the pages rely on

  /** No two lines share a product id. */
  ghost predicate UniqueIds(items: seq<CartLine>)
  {
    forall i, j :: 0 <= i < j < |items| ==> items[i].product.id != items[j].product.id
  }

  /** Every line has 1 <= quantity <= the stock of its stored product. */
  ghost predicate InStock(items: seq<CartLine>)
  {
    forall i :: 0 <= i < |items| ==> 1 <= items[i].quantity <= items[i].product.stock
  }

  ghost predicate PositiveQuantities(items: seq<CartLine>)
  {
    forall i :: 0 <= i < |items| ==> items[i].quantity >= 1
  }

  // ---------------------------------------------------------------------
  // The store

  class Cart {
    var items: seq<CartLine>

    constructor ()
      ensures items == []
    {
      items := [];
    }

    method AddItem(product: Product, quantity: int := 1)
      modifies this
      ensures items == WithAdded(old(items), product, quantity)
    {
      var existing := FindLine(items, product.id);
      FindLineFirst(items, product.id);
      if existing.Some? {
        var newQty := items[existing.value].quantity + quantity;
        if newQty > product.stock { return; }
        items := SetQuantity(items, product.id, newQty);
      } else {
        if quantity > product.stock { return; }
        items := items + [CartLine(product, quantity)];
      }
    }

    method RemoveItem(productId: string)
      modifies this
      ensures items == WithoutProduct(old(items), productId)
    {
      items := WithoutProduct(items, productId);
    }

    method UpdateQuantity(productId: string, quantity: int)
      modifies this
      ensures items == WithQuantity(old(items), productId, quantity)
    {
      if quantity <= 0 {
        RemoveItem(productId);
        return;
      }
      items := SetQuantity(items, productId, quantity);
    }

    method ClearCart()
      modifies this
      ensures items == []
    {
      items := [];
    }

    function GetTotalItems(): int
      reads this
    {
      TotalItems(items)
    }

    function GetTotalPrice(): int
      reads this
    {
      TotalPrice(items)
    }
  }

  // ---------------------------------------------------------------------
  // Properties of the mutators

  /** FindLine gives the first line with the id, and gives none exactly when no line has it. */
  lemma {:induction false} FindLineFirst(items: seq<CartLine>, id: string)
    ensures FindLine(items, id).Some? ==> items[FindLine(items, id).value].product.id == id
    ensures FindLine(items, id).Some? ==> forall j :: 0 <= j < FindLine(items, id).value ==> items[j].product.id != id
    ensures FindLine(items, id).None? <==> forall j :: 0 <= j < |items| ==> items[j].product.id != id
    decreases |items|
  {
    if items != [] && items[0].product.id != id {
      FindLineFirst(items[1..], id);
      assert forall j :: 1 <= j < |items| ==> items[j] == items[1..][j - 1];
    }
  }

  /** SetQuantity keeps the length; lines with the id get the new quantity, the others stay. */
  lemma {:induction false} SetQuantityLines(items: seq<CartLine>, id: string, q: int)
    ensures |SetQuantity(items, id, q)| == |items|
    ensures forall j :: 0 <= j < |items| ==>
      SetQuantity(items, id, q)[j] == if items[j].product.id == id then items[j].(quantity := q) else items[j]
    decreases |items|
  {
    if items != [] {
      SetQuantityLines(items[1..], id, q);
      assert forall j :: 1 <= j < |items| ==> items[j] == items[1..][j - 1];
    }
  }

  /** WithoutProduct never grows the list and leaves no line with the id. */
  lemma {:induction false} WithoutProductDrops(items: seq<CartLine>, id: string)
    ensures |WithoutProduct(items, id)| <= |items|
    ensures forall j :: 0 <= j < |WithoutProduct(items, id)| ==> WithoutProduct(items, id)[j].product.id != id
    decreases |items|
  {
    if items != [] {
      WithoutProductDrops(items[1..], id);
    }
  }

  lemma {:induction false} TotalItemsAppend(a: seq<CartLine>, b: seq<CartLine>)
    ensures TotalItems(a + b) == TotalItems(a) + TotalItems(b)
  {
    if a != [] {
      assert (a + b)[1..] == a[1..] + b;
      TotalItemsAppend(a[1..], b);
    } else {
      assert a + b == b;
    }
  }

  lemma {:induction false} TotalPriceAppend(a: seq<CartLine>, b: seq<CartLine>)
    ensures TotalPrice(a + b) == TotalPrice(a) + TotalPrice(b)
  {
    if a != [] {
      assert (a + b)[1..] == a[1..] + b;
      TotalPriceAppend(a[1..], b);
    } else {
      assert a + b == b;
    }
  }

  /** Changing one line's quantity changes the total by the difference. */
  lemma {:induction false} TotalItemsUpdateAt(items: seq<CartLine>, k: nat, q: int)
    requires k < |items|
    ensures TotalItems(items[k := items[k].(quantity := q)]) == TotalItems(items) - items[k].quantity + q
  {
    if k > 0 {
      assert items[k := items[k].(quantity := q)][1..] == items[1..][k - 1 := items[k].(quantity := q)];
      TotalItemsUpdateAt(items[1..], k - 1, q);
    }
  }

  /** With unique ids, setting the quantity of a present id touches that one line only. */
  lemma SetQuantityUnique(items: seq<CartLine>, k: nat, id: string, q: int)
    requires UniqueIds(items) && k < |items| && items[k].product.id == id
    ensures SetQuantity(items, id, q) == items[k := items[k].(quantity := q)]
  {
    SetQuantityLines(items, id, q);
  }

  /** A product absent from the cart: accepted iff quantity <= stock, and then appended at the end. */
  lemma AddItemNewLine(items: seq<CartLine>, p: Product, q: int)
    requires forall j :: 0 <= j < |items| ==> items[j].product.id != p.id
    ensures q <= p.stock ==> WithAdded(items, p, q) == items + [CartLine(p, q)]
    ensures q > p.stock ==> WithAdded(items, p, q) == items
  {
    FindLineFirst(items, p.id);
  }

  /**
   * A product already in the cart at line k: accepted iff the new total fits the
   * passed product's stock; then only line k changes, it keeps its stored product
   * record and its quantity grows by q.
   */
  lemma AddItemExistingLine(items: seq<CartLine>, p: Product, q: int, k: nat)
    requires UniqueIds(items) && k < |items| && items[k].product.id == p.id
    ensures items[k].quantity + q > p.stock ==> WithAdded(items, p, q) == items
    ensures items[k].quantity + q <= p.stock ==>
      WithAdded(items, p, q) == items[k := CartLine(items[k].product, items[k].quantity + q)]
  {
    if items[k].quantity + q > p.stock {
      ExistingLineRejected(items, p, q, k);
    } else {
      ExistingLineAccepted(items, p, q, k);
    }
  }

  lemma ExistingLineRejected(items: seq<CartLine>, p: Product, q: int, k: nat)
    requires UniqueIds(items) && k < |items| && items[k].product.id == p.id
    requires items[k].quantity + q > p.stock
    ensures WithAdded(items, p, q) == items
  {
    FindUniqueLine(items, k, p.id);
  }

  lemma ExistingLineAccepted(items: seq<CartLine>, p: Product, q: int, k: nat)
    requires UniqueIds(items) && k < |items| && items[k].product.id == p.id
    requires items[k].quantity + q <= p.stock
    ensures WithAdded(items, p, q) == items[k := CartLine(items[k].product, items[k].quantity + q)]
  {
    FindUniqueLine(items, k, p.id);
    var n := items[k].quantity + q;
    assert WithAdded(items, p, q) == SetQuantity(items, p.id, n);
    SetQuantityUnique(items, k, p.id, n);
    assert CartLine(items[k].product, n) == items[k].(quantity := n);
  }

  /** With unique ids, looking up line k's id finds line k. */
  lemma FindUniqueLine(items: seq<CartLine>, k: nat, id: string)
    requires UniqueIds(items) && k < |items| && items[k].product.id == id
    ensures FindLine(items, id) == Some(k)
  {
    FindLineFirst(items, id);
  }

  /** addItem never gives a product id a second line. */
  lemma AddItemKeepsIdsUnique(items: seq<CartLine>, p: Product, q: int)
    requires UniqueIds(items)
    ensures UniqueIds(WithAdded(items, p, q))
  {
    var f := FindLine(items, p.id);
    FindLineFirst(items, p.id);
    if f.Some? {
      AddItemExistingLine(items, p, q, f.value);
      RaisedLineKeepsIds(items, f.value, items[f.value].quantity + q);
    } else {
      AddItemNewLine(items, p, q);
      if q <= p.stock {
        AppendedLineKeepsIds(items, CartLine(p, q));
      }
    }
  }

  lemma RaisedLineKeepsIds(items: seq<CartLine>, k: nat, n: int)
    requires UniqueIds(items) && k < |items|
    ensures UniqueIds(items[k := CartLine(items[k].product, n)])
  {
    var r := items[k := CartLine(items[k].product, n)];
    assert forall i :: 0 <= i < |r| ==> r[i].product == items[i].product;
  }

  lemma AppendedLineKeepsIds(items: seq<CartLine>, l: CartLine)
    requires UniqueIds(items)
    requires forall j :: 0 <= j < |items| ==> items[j].product.id != l.product.id
    ensures UniqueIds(items + [l])
  {
    var r := items + [l];
    forall i, j | 0 <= i < j < |r| ensures r[i].product.id != r[j].product.id {
      if j < |items| { assert r[i] == items[i] && r[j] == items[j]; }
    }
  }

  /**
   * With q >= 1 and positive quantities, the line addItem touches ends with
   * 1 <= quantity <= the passed product's stock.
   */
  lemma AddItemTouchedLineBounds(items: seq<CartLine>, p: Product, q: int)
    requires UniqueIds(items) && PositiveQuantities(items) && q >= 1
    ensures var r := WithAdded(items, p, q);
      forall j :: 0 <= j < |r| && r[j].product.id == p.id && r != items ==>
        1 <= r[j].quantity <= p.stock
  {
    FindLineFirst(items, p.id);
    match FindLine(items, p.id)
    case Some(k) =>
      SetQuantityUnique(items, k, p.id, items[k].quantity + q);
    case None =>
  }

  /** Raising one line by q >= 1 changes the cart and raises the item total by q. */
  lemma RaiseLineTotal(items: seq<CartLine>, k: nat, q: int)
    requires k < |items| && q >= 1
    ensures var r := items[k := CartLine(items[k].product, items[k].quantity + q)];
      r != items && TotalItems(r) == TotalItems(items) + q
  {
    var r := items[k := CartLine(items[k].product, items[k].quantity + q)];
    assert r[k] != items[k];
    assert r == items[k := items[k].(quantity := items[k].quantity + q)];
    TotalItemsUpdateAt(items, k, items[k].quantity + q);
  }

  /**
   * With q >= 1, addItem either leaves the cart as it was (a rejection) and the
   * item total unchanged, or raises the item total by exactly q.
   */
  lemma AddItemTotal(items: seq<CartLine>, p: Product, q: int)
    requires UniqueIds(items) && q >= 1
    ensures var r := WithAdded(items, p, q);
      (r == items && TotalItems(r) == TotalItems(items))
      || (r != items && TotalItems(r) == TotalItems(items) + q)
  {
    var f := FindLine(items, p.id);
    FindLineFirst(items, p.id);
    if f.Some? {
      AddItemExistingLine(items, p, q, f.value);
      if items[f.value].quantity + q <= p.stock {
        RaiseLineTotal(items, f.value, q);
      }
    } else {
      AddItemNewLine(items, p, q);
      if q <= p.stock {
        TotalItemsAppend(items, [CartLine(p, q)]);
        assert |items + [CartLine(p, q)]| != |items|;
      }
    }
  }

  /** So the item total detects rejection: it is unchanged exactly when the cart is. */
  lemma AddItemUnchangedTotalIffRejected(items: seq<CartLine>, p: Product, q: int)
    requires UniqueIds(items) && q >= 1
    ensures TotalItems(WithAdded(items, p, q)) == TotalItems(items) <==> WithAdded(items, p, q) == items
  {
    AddItemTotal(items, p, q);
  }

  /** removeItem on an absent id changes nothing. */
  lemma {:induction false} RemoveAbsent(items: seq<CartLine>, id: string)
    requires forall j :: 0 <= j < |items| ==> items[j].product.id != id
    ensures WithoutProduct(items, id) == items
  {
    if items != [] {
      RemoveAbsent(items[1..], id);
      assert [items[0]] + items[1..] == items;
    }
  }

  /** removeItem on the unique line k drops exactly that line and keeps the rest in order. */
  lemma {:induction false} RemovePresent(items: seq<CartLine>, k: nat)
    requires UniqueIds(items) && k < |items|
    ensures WithoutProduct(items, items[k].product.id) == items[..k] + items[k + 1..]
  {
    var id := items[k].product.id;
    if k == 0 {
      RemoveAbsent(items[1..], id);
    } else {
      RemovePresent(items[1..], k - 1);
      assert items[1..][..k - 1] == items[1..k];
      assert items[1..][k..] == items[k + 1..];
      assert [items[0]] + items[1..k] == items[..k];
    }
  }

  /** removeItem keeps every line of another product, in order: it is a subsequence filter. */
  lemma {:induction false} RemoveKeepsOthers(items: seq<CartLine>, id: string)
    ensures multiset(WithoutProduct(items, id)) <= multiset(items)
    ensures forall l :: l in items && l.product.id != id ==> l in WithoutProduct(items, id)
  {
    if items != [] {
      RemoveKeepsOthers(items[1..], id);
      assert items == [items[0]] + items[1..];
    }
  }

  /** updateQuantity with q <= 0 is removeItem. */
  lemma UpdateNonPositiveRemoves(items: seq<CartLine>, id: string, q: int)
    requires q <= 0
    ensures WithQuantity(items, id, q) == WithoutProduct(items, id)
  {
  }

  /**
   * updateQuantity with q > 0 sets that line's quantity to q whatever the stock
   * and leaves every other line as it was.
   */
  lemma UpdatePositiveSets(items: seq<CartLine>, k: nat, q: int)
    requires UniqueIds(items) && k < |items| && q > 0
    ensures WithQuantity(items, items[k].product.id, q) == items[k := items[k].(quantity := q)]
  {
    SetQuantityUnique(items, k, items[k].product.id, q);
  }

  /** updateQuantity has no stock check of its own: it can leave a line above stock. */
  lemma UpdateQuantityCanExceedStock(p: Product)
    requires p.stock >= 1
    ensures var items := [CartLine(p, 1)];
      InStock(items) && !InStock(WithQuantity(items, p.id, p.stock + 1))
  {
    var items := [CartLine(p, 1)];
    assert WithQuantity(items, p.id, p.stock + 1)[0].quantity == p.stock + 1;
  }

  /** clearCart empties the cart: no items and a zero total. */
  lemma ClearTotals()
    ensures TotalItems([]) == 0 && TotalPrice([]) == 0
  {
  }
}
