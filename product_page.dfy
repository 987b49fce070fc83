/**
 * The product detail page (src/pages/ProductPage.tsx): the stock badge, the
 * clamped quantity stepper and the "add to cart" handler, which tells an
 * accepted add from a rejected one only by comparing the item total before
 * and after the store call.
 */
module ProductPage {
  import opened Domain
  import opened CartStore

  /** `maxQty`: the stepper's ceiling, the stock capped at 99. */
  function MaxQty(stock: int): (r: int)
    ensures r <= stock && r <= 99
    ensures r == stock || r == 99
  {
    if stock < 99 then stock else 99
  }

  /** The three badges of the stock display. */
  datatype StockLevel = OutOfStock | LowStock | Available

  predicate IsOutOfStock(stock: int) { stock == 0 }

  predicate IsLowStock(stock: int) { stock > 0 && stock <= 5 }

  /** The badge shown: out of stock first, then low stock, else available. */
  function Level(stock: int): StockLevel
  {
    if IsOutOfStock(stock) then OutOfStock
    else if IsLowStock(stock) then LowStock
    else Available
  }

  /** For a non-negative stock exactly one of the three conditions holds, and the badge names it. */
  lemma LevelExactlyOne(stock: int)
    requires stock >= 0
    ensures (Level(stock) == OutOfStock) <==> stock == 0
    ensures (Level(stock) == LowStock) <==> 1 <= stock <= 5
    ensures (Level(stock) == Available) <==> stock > 5
    ensures IsOutOfStock(stock) || IsLowStock(stock) || stock > 5
    ensures !(IsOutOfStock(stock) && IsLowStock(stock))
  {
  }

  /** The stepper is rendered, and the add button enabled, only with stock. */
  function SelectorShown(stock: int): (r: bool)
    ensures r <==> !IsOutOfStock(stock)
  {
    stock != 0
  }

  /** For a stock of 0 or more, the stepper is shown exactly when its range [1, maxQty] is not empty. */
  lemma ShownStepperHasRoom(stock: int)
    requires stock >= 0
    ensures SelectorShown(stock) <==> MaxQty(stock) >= 1
    ensures SelectorShown(stock) <==> Level(stock) != OutOfStock
  {
  }

  /** The stepper's two buttons. */
  datatype StepEvent = Decrease | Increase

  /**
   * One click. A disabled button (at 1 for "-", at `maxQty` for "+") does
   * nothing; an enabled one applies the clamped update.
   */
  function Step(q: int, maxQty: int, e: StepEvent): int
  {
    match e
    case Decrease => if q <= 1 then q else (if q - 1 < 1 then 1 else q - 1)
    case Increase => if q >= maxQty then q else (if q + 1 < maxQty then q + 1 else maxQty)
  }

  function Steps(q: int, maxQty: int, es: seq<StepEvent>): int
    decreases |es|
  {
    if es == [] then q else Steps(Step(q, maxQty, es[0]), maxQty, es[1..])
  }

  /** One click keeps a quantity inside [1, maxQty]. */
  lemma StepInRange(q: int, maxQty: int, e: StepEvent)
    requires 1 <= q <= maxQty
    ensures 1 <= Step(q, maxQty, e) <= maxQty
    ensures e == Decrease ==> Step(q, maxQty, e) == (if q == 1 then 1 else q - 1)
    ensures e == Increase ==> Step(q, maxQty, e) == (if q == maxQty then maxQty else q + 1)
  {
  }

  /**
   * From the initial quantity 1, any sequence of clicks stays in [1, maxQty]
   * for a product in stock.
   */
  lemma {:induction false} StepsInRange(q: int, stock: int, es: seq<StepEvent>)
    requires stock >= 1 && 1 <= q <= MaxQty(stock)
    ensures 1 <= Steps(q, MaxQty(stock), es) <= MaxQty(stock)
    decreases |es|
  {
    if es != [] {
      StepInRange(q, MaxQty(stock), es[0]);
      StepsInRange(Step(q, MaxQty(stock), es[0]), stock, es[1..]);
    }
  }

  /** The toasts of `handleAdd`. */
  datatype AddNotice = NotLoaded | InsufficientStock(stock: int) | AddedToCart(quantity: int, name: string)

  class ProductView {
    const product: Option<Product>
    var quantity: int

    constructor (product: Option<Product>)
      ensures this.product == product && quantity == 1
    {
      this.product := product;
      quantity := 1;
    }

    method Click(e: StepEvent)
      requires product.Some?
      modifies this
      ensures quantity == Step(old(quantity), MaxQty(product.value.stock), e)
    {
      var maxQty := MaxQty(product.value.stock);
      match e
      case Decrease =>
        if quantity > 1 {
          quantity := if quantity - 1 < 1 then 1 else quantity - 1;
        }
      case Increase =>
        if quantity < maxQty {
          quantity := if quantity + 1 < maxQty then quantity + 1 else maxQty;
        }
    }

    /** `handleAdd`: add, then warn exactly when the item total did not move. */
    method HandleAdd(cart: Cart) returns (notice: AddNotice)
      modifies cart
      ensures product.None? ==> cart.items == old(cart.items) && notice == NotLoaded
      ensures product.Some? ==> cart.items == WithAdded(old(cart.items), product.value, quantity)
      ensures product.Some? ==>
        (notice == InsufficientStock(product.value.stock) <==> TotalItems(cart.items) == TotalItems(old(cart.items)))
      ensures product.Some? && TotalItems(cart.items) != TotalItems(old(cart.items)) ==>
        notice == AddedToCart(quantity, product.value.name)
    {
      if product.None? {
        return NotLoaded;
      }
      var p := product.value;
      var before := cart.GetTotalItems();
      cart.AddItem(p, quantity);
      var after := cart.GetTotalItems();
      if after == before {
        notice := InsufficientStock(p.stock);
      } else {
        notice := AddedToCart(quantity, p.name);
      }
    }
  }
}
