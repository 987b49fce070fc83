/**
 * The cart page (src/pages/CartPage.tsx): the +/- steppers, the trash
 * button, the "empty cart" confirmation dialog and the checkout gate. The
 * page's only stock check is its own "+" guard; the store does none.
 */
module CartPage {
  import opened Domain
  import opened CartStore
  import Routes

  /** The toasts the handlers raise. */
  datatype Notice =
    | NoNotice
    | QuantityUpdated(name: string, quantity: int)
    | StockLimit(stock: int)
    | ProductRemoved(name: string)
    | CartEmptied
    | SignInRequired

  /** The list the "+" button leaves behind for line k. */
  function PlusResult(items: seq<CartLine>, k: nat): seq<CartLine>
    requires k < |items|
  {
    var line := items[k];
    if line.quantity >= line.product.stock then items
    else WithQuantity(items, line.product.id, line.quantity + 1)
  }

  /** The list the "-" button leaves behind for line k. */
  function MinusResult(items: seq<CartLine>, k: nat): seq<CartLine>
    requires k < |items|
  {
    WithQuantity(items, items[k].product.id, items[k].quantity - 1)
  }

  /** Where "Proceder al pago" goes: to /checkout only for a signed-in user. */
  function CheckoutTarget(signedIn: bool): (r: Option<string>)
    ensures r.Some? <==> signedIn
    ensures r.Some? ==> r.value == "/checkout"
  {
    if signedIn then Some("/checkout") else None
  }

  /**
   * Once the session has loaded, the button's gate agrees with the route
   * table: a signed-in user is sent to /checkout and the checkout page is
   * shown to them; anyone else is not sent, and the route would redirect
   * them to /login.
   */
  lemma CheckoutGateMatchesRoute(a: Routes.Auth)
    requires !a.loading
    ensures CheckoutTarget(a.user.Some?) == Some("/checkout") <==>
      Routes.ViewOf(["checkout"], a) == Routes.Shown(Routes.Show(Routes.CheckoutPage))
    ensures CheckoutTarget(a.user.Some?).None? <==>
      Routes.ViewOf(["checkout"], a) == Routes.Guarded(Routes.Redirect(Routes.LoginPath))
  {
    Routes.CheckoutRoute();
  }

  /** The dialog's inputs: the header button, and the modal's two actions. */
  datatype DialogEvent = AskClear | ConfirmClear | CancelClear

  /**
   * One dialog event on (cart lines, dialog open). The modal's buttons exist
   * only while it is open, so confirm and cancel do nothing when it is closed.
   */
  function DialogStep(items: seq<CartLine>, open: bool, e: DialogEvent): (seq<CartLine>, bool)
  {
    match e
    case AskClear => (items, true)
    case ConfirmClear => if open then ([], false) else (items, open)
    case CancelClear => (items, false)
  }

  function DialogRun(items: seq<CartLine>, open: bool, es: seq<DialogEvent>): (seq<CartLine>, bool)
    decreases |es|
  {
    if es == [] then (items, open)
    else
      var (items', open') := DialogStep(items, open, es[0]);
      DialogRun(items', open', es[1..])
  }

  class CartView {
    const cart: Cart
    var showClearConfirm: bool

    constructor (cart: Cart)
      ensures this.cart == cart && !showClearConfirm
    {
      this.cart := cart;
      showClearConfirm := false;
    }

    /** "+" on line k: refused at stock, otherwise one more unit. */
    method Plus(k: nat) returns (notice: Notice)
      requires k < |cart.items|
      modifies cart
      ensures cart.items == PlusResult(old(cart.items), k)
      ensures var line := old(cart.items)[k];
        notice == if line.quantity >= line.product.stock then StockLimit(line.product.stock)
                  else QuantityUpdated(line.product.name, line.quantity + 1)
    {
      var line := cart.items[k];
      if line.quantity >= line.product.stock {
        notice := StockLimit(line.product.stock);
        return;
      }
      cart.UpdateQuantity(line.product.id, line.quantity + 1);
      notice := QuantityUpdated(line.product.name, line.quantity + 1);
    }

    /** "-" on line k: one unit less, which removes the line at quantity 1. */
    method Minus(k: nat) returns (notice: Notice)
      requires k < |cart.items|
      modifies cart
      ensures cart.items == MinusResult(old(cart.items), k)
      ensures var line := old(cart.items)[k];
        notice == if line.quantity - 1 > 0 then QuantityUpdated(line.product.name, line.quantity - 1)
                  else NoNotice
    {
      var line := cart.items[k];
      cart.UpdateQuantity(line.product.id, line.quantity - 1);
      notice := if line.quantity - 1 > 0 then QuantityUpdated(line.product.name, line.quantity - 1) else NoNotice;
    }

    /** The trash button: `handleRemove`. */
    method HandleRemove(productId: string, productName: string) returns (notice: Notice)
      modifies cart
      ensures cart.items == WithoutProduct(old(cart.items), productId)
      ensures notice == ProductRemoved(productName)
    {
      cart.RemoveItem(productId);
      notice := ProductRemoved(productName);
    }

    /** The header's "Vaciar carrito" button only opens the dialog. */
    method AskClearCart()
      modifies this
      ensures showClearConfirm
    {
      showClearConfirm := true;
    }

    /** The modal's confirm action: `handleClearCart`. */
    method HandleClearCart() returns (notice: Notice)
      modifies this, cart
      ensures cart.items == [] && !showClearConfirm && notice == CartEmptied
    {
      cart.ClearCart();
      showClearConfirm := false;
      notice := CartEmptied;
    }

    /** The modal's cancel action. */
    method CancelClearCart()
      modifies this
      ensures !showClearConfirm
    {
      showClearConfirm := false;
    }

    method HandleCheckout(signedIn: bool) returns (target: Option<string>, notice: Notice)
      ensures target == CheckoutTarget(signedIn)
      ensures notice == if signedIn then NoNotice else SignInRequired
    {
      if !signedIn {
        return None, SignInRequired;
      }
      return Some("/checkout"), NoNotice;
    }
  }

  // ---------------------------------------------------------------------

  /** "+" keeps every line within its stock: the page, not the store, guards the bound. */
  lemma PlusKeepsInStock(items: seq<CartLine>, k: nat)
    requires UniqueIds(items) && InStock(items) && k < |items|
    ensures InStock(PlusResult(items, k))
    ensures UniqueIds(PlusResult(items, k))
  {
    var line := items[k];
    if line.quantity < line.product.stock {
      UpdatePositiveSets(items, k, line.quantity + 1);
      RaisedLineKeeps(items, k);
    }
  }

  /** Raising a line below its stock by one keeps the bounds and the ids. */
  lemma RaisedLineKeeps(items: seq<CartLine>, k: nat)
    requires UniqueIds(items) && InStock(items) && k < |items|
    requires items[k].quantity < items[k].product.stock
    ensures InStock(items[k := items[k].(quantity := items[k].quantity + 1)])
    ensures UniqueIds(items[k := items[k].(quantity := items[k].quantity + 1)])
  {
    var raised := items[k := items[k].(quantity := items[k].quantity + 1)];
    assert forall i :: 0 <= i < |raised| ==> raised[i].product == items[i].product;
  }

  /** "+" either refuses (at stock) or raises line k, and nothing else, by exactly one. */
  lemma PlusRaisesByOne(items: seq<CartLine>, k: nat)
    requires UniqueIds(items) && PositiveQuantities(items) && k < |items|
    ensures items[k].quantity >= items[k].product.stock ==> PlusResult(items, k) == items
    ensures items[k].quantity < items[k].product.stock ==>
      PlusResult(items, k) == items[k := items[k].(quantity := items[k].quantity + 1)]
      && TotalItems(PlusResult(items, k)) == TotalItems(items) + 1
  {
    if items[k].quantity < items[k].product.stock {
      PlusAccepted(items, k);
      PlusTotal(items, k);
    }
  }

  lemma PlusTotal(items: seq<CartLine>, k: nat)
    requires k < |items|
    ensures TotalItems(items[k := items[k].(quantity := items[k].quantity + 1)]) == TotalItems(items) + 1
  {
    TotalItemsUpdateAt(items, k, items[k].quantity + 1);
  }

  lemma PlusAccepted(items: seq<CartLine>, k: nat)
    requires UniqueIds(items) && k < |items| && items[k].quantity >= 1
    requires items[k].quantity < items[k].product.stock
    ensures PlusResult(items, k) == items[k := items[k].(quantity := items[k].quantity + 1)]
  {
    UpdatePositiveSets(items, k, items[k].quantity + 1);
  }

  /** "-" at quantity 1 removes the line; above 1 it lowers it by one. */
  lemma MinusAtOneRemoves(items: seq<CartLine>, k: nat)
    requires UniqueIds(items) && k < |items|
    ensures items[k].quantity <= 1 ==> MinusResult(items, k) == items[..k] + items[k + 1..]
    ensures items[k].quantity > 1 ==>
      MinusResult(items, k) == items[k := items[k].(quantity := items[k].quantity - 1)]
  {
    if items[k].quantity <= 1 {
      RemovePresent(items, k);
    } else {
      UpdatePositiveSets(items, k, items[k].quantity - 1);
    }
  }

  /** The cart is emptied only by a confirm while the dialog is open; otherwise it is intact. */
  lemma {:induction false} DialogOnlyConfirmClears(items: seq<CartLine>, open: bool, es: seq<DialogEvent>)
    requires ConfirmClear !in es
    ensures DialogRun(items, open, es).0 == items
    decreases |es|
  {
    if es != [] {
      var (items', open') := DialogStep(items, open, es[0]);
      assert items' == items;
      assert es[1..] == es[1..] && ConfirmClear !in es[1..] by {
        assert forall e :: e in es[1..] ==> e in es;
      }
      DialogOnlyConfirmClears(items', open', es[1..]);
    }
  }

  /** Asking and then confirming empties the cart; asking and then cancelling keeps it. */
  lemma DialogAskThen(items: seq<CartLine>, open: bool)
    ensures DialogRun(items, open, [AskClear, ConfirmClear]) == ([], false)
    ensures DialogRun(items, open, [AskClear, CancelClear]) == (items, false)
  {
    assert [AskClear, ConfirmClear][1..] == [ConfirmClear];
    assert [AskClear, CancelClear][1..] == [CancelClear];
  }
}
