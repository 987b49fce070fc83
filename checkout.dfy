/**
 * The three-step checkout (src/pages/CheckoutPage.tsx): address, delivery
 * slot, payment. The last step writes the order, then its lines, then one
 * stock update per line, with no transaction: the backend's answers are
 * parameters here.
 */
module Checkout {
  import opened Domain
  import opened Text
  import opened CartStore

  /** The offered delivery slots. */
  const DeliverySlots: seq<string> := ["Mañana 8am - 12pm", "Mañana 12pm - 5pm", "Tarde 5pm - 8pm"]

  /** The `value`s of the offered payment methods. */
  const PaymentValues: seq<string> := ["cash_on_delivery", "bank_transfer", "other"]

  /** What the address step submits. */
  datatype AddressForm = AddressForm(address: string, phone: string, notes: Option<string>)

  /**
   * `addressSchema`: a detailed address, a phone of at least 8 digits only;
   * notes optional. Lengths are JavaScript's, in UTF-16 code units.
   */
  predicate AddressValid(f: AddressForm)
  {
    Utf16Length(f.address) >= 10 && |f.phone| >= 8 && AllDigits(f.phone)
  }

  /**
   * The phone is all digits, so its code units are its characters; for an
   * address inside the Basic Multilingual Plane the same holds, and the
   * schema's bounds are plain character counts.
   */
  lemma AddressValidInBmp(f: AddressForm)
    requires InBmp(f.address)
    ensures AddressValid(f) <==> |f.address| >= 10 && |f.phone| >= 8 && AllDigits(f.phone)
  {
    Utf16LengthInBmp(f.address);
  }

  /**
   * The schema refuses a phone with anything but digits, however long, and a
   * short address.
   */
  lemma AddressRules()
    ensures AddressValid(AddressForm("Calle 23 #456", "55512345", None))
    ensures !AddressValid(AddressForm("Calle 23 #456", "5551-2345", None))
    ensures !AddressValid(AddressForm("Calle 23", "55512345", None))
    ensures !AddressValid(AddressForm("Calle 23 #456", "5551234", Some("")))
  {
    Utf16LengthInBmp("Calle 23");
    assert AllDigits("55512345");
    assert !IsDigit("5551-2345"[4]);
  }

  /** A nine-character address ending in an emoji is ten code units long, so it passes. */
  lemma AstralAddressPasses()
    ensures AddressValid(AddressForm("Calle 2 \U{1F3E0}", "55512345", None))
  {
    assert AstralPositions("Calle 2 \U{1F3E0}") == {8};
    assert AllDigits("55512345");
  }

  /** The wizard is shown only for a non-empty cart; otherwise the "empty cart" view. */
  predicate ShowsWizard(items: seq<CartLine>) { items != [] }

  // ---------------------------------------------------------------------
  // The wizard

  datatype WizardState = WizardState(
    step: int,
    direction: int,
    slot: string,
    pay: string,
    addressData: Option<AddressForm>)

  const Initial := WizardState(1, 1, "", "", None)

  /** The inputs of steps 1 to 3; each exists on screen at its own step only. */
  datatype WizardEvent =
    | SubmitAddress(form: AddressForm)
    | PickSlot(slot: string)
    | ContinueFromSlot
    | BackToAddress
    | PickPayment(value: string)
    | BackToSlot

  /** `goTo(next)`: slide forward iff the target is past the current step. */
  function GoTo(s: WizardState, next: int): (r: WizardState)
    ensures r.step == next
    ensures r.direction == 1 <==> next > s.step
    ensures r.direction == -1 <==> next <= s.step
    ensures r == s.(step := r.step, direction := r.direction)
  {
    s.(step := next, direction := if next > s.step then 1 else -1)
  }

  /** Going forward and then back to where one was restores the state, now sliding backwards. */
  lemma BackUndoesForward(s: WizardState, next: int)
    requires next > s.step
    ensures GoTo(s, next).direction == 1
    ensures GoTo(GoTo(s, next), s.step) == s.(direction := -1)
  {
  }

  /**
   * One event. The address form calls `handleAddress` only when the schema
   * accepts; `handleSlot` returns early with no slot.
   */
  function Transition(s: WizardState, e: WizardEvent): (r: WizardState)
    ensures r.step == s.step || r.step == s.step + 1 || r.step == s.step - 1
    ensures r.addressData != s.addressData ==> e.SubmitAddress? && AddressValid(e.form) && r.addressData == Some(e.form)
    ensures r.slot != s.slot ==> e.PickSlot? && r.slot == e.slot
    ensures r.pay != s.pay ==> e.PickPayment? && r.pay == e.value
  {
    match e
    case SubmitAddress(f) =>
      if s.step == 1 && AddressValid(f) then GoTo(s.(addressData := Some(f)), 2) else s
    case PickSlot(slot) => if s.step == 2 then s.(slot := slot) else s
    case ContinueFromSlot => if s.step == 2 && s.slot != "" then GoTo(s, 3) else s
    case BackToAddress => if s.step == 2 then GoTo(s, 1) else s
    case PickPayment(v) => if s.step == 3 then s.(pay := v) else s
    case BackToSlot => if s.step == 3 then GoTo(s, 2) else s
  }

  function Run(s: WizardState, es: seq<WizardEvent>): (r: WizardState)
    ensures r.pay != s.pay ==> exists k :: 0 <= k < |es| && es[k].PickPayment? && r.pay == es[k].value
    decreases |es|
  {
    if es == [] then s else Run(Transition(s, es[0]), es[1..])
  }

  /** Past step 1 a valid address is saved; at step 3 a slot is chosen. */
  predicate WizardInv(s: WizardState)
  {
    1 <= s.step <= 3
    && (s.step >= 2 ==> s.addressData.Some? && AddressValid(s.addressData.value))
    && (s.step == 3 ==> s.slot != "")
  }

  lemma TransitionKeepsInv(s: WizardState, e: WizardEvent)
    requires WizardInv(s)
    ensures WizardInv(Transition(s, e))
    ensures Transition(s, e).step != s.step ==>
      (s.step == 1 && e.SubmitAddress? && AddressValid(e.form) && Transition(s, e).step == 2)
      || (s.step == 2 && e == ContinueFromSlot && s.slot != "" && Transition(s, e).step == 3)
      || (s.step == 2 && e == BackToAddress && Transition(s, e).step == 1)
      || (s.step == 3 && e == BackToSlot && Transition(s, e).step == 2)
  {
  }

  /** Every reachable wizard state keeps the invariant, so step 3 has a saved address and a slot. */
  lemma {:induction false} RunKeepsInv(s: WizardState, es: seq<WizardEvent>)
    requires WizardInv(s)
    ensures WizardInv(Run(s, es))
    decreases |es|
  {
    if es != [] {
      TransitionKeepsInv(s, es[0]);
      RunKeepsInv(Transition(s, es[0]), es[1..]);
    }
  }

  lemma InitialInv()
    ensures WizardInv(Initial)
  {
  }

  // ---------------------------------------------------------------------
  // What step 3 writes

  /** The row inserted into `orders`. */
  datatype NewOrder = NewOrder(
    userId: string,
    status: Status,
    deliveryAddress: string,
    deliveryProvince: string,
    deliveryMunicipality: string,
    deliveryPhone: string,
    deliverySlot: string,
    paymentMethod: string,
    total: int,
    notes: Option<string>)

  function OrderRequest(p: Profile, a: AddressForm, slot: string, pay: string, items: seq<CartLine>): (r: NewOrder)
    ensures r.status == Pending && r.total == TotalPrice(items)
    ensures r.userId == p.id && r.deliveryProvince == p.province && r.deliveryMunicipality == p.municipality
    ensures r.deliveryAddress == a.address && r.deliveryPhone == a.phone && r.notes == a.notes
    ensures r.deliverySlot == slot && r.paymentMethod == pay
  {
    NewOrder(p.id, Pending, a.address, p.province, p.municipality, a.phone, slot, pay, TotalPrice(items), a.notes)
  }

  /** `items.map(...)`: one order line per cart line, in cart order. */
  function OrderLines(orderId: string, items: seq<CartLine>): (r: seq<OrderItem>)
    ensures |r| == |items|
    ensures forall i :: 0 <= i < |items| ==>
      r[i].orderId == orderId && r[i].productId == Some(items[i].product.id)
      && r[i].productName == items[i].product.name && r[i].productPrice == items[i].product.price
      && r[i].quantity == items[i].quantity
      && r[i].subtotal == items[i].product.price * items[i].quantity
  {
    if items == [] then []
    else
      var line := items[0];
      [OrderItem(orderId, Some(line.product.id), line.product.name, line.product.price,
                 line.quantity, line.product.price * line.quantity)]
      + OrderLines(orderId, items[1..])
  }

  function SubtotalSum(lines: seq<OrderItem>): int
  {
    if lines == [] then 0 else lines[0].subtotal + SubtotalSum(lines[1..])
  }

  /** The order lines' subtotals add up to the order's total. */
  lemma {:induction false} OrderLinesSumToTotal(orderId: string, items: seq<CartLine>)
    ensures SubtotalSum(OrderLines(orderId, items)) == TotalPrice(items)
  {
    if items != [] {
      OrderLinesSumToTotal(orderId, items[1..]);
      assert OrderLines(orderId, items)[1..] == OrderLines(orderId, items[1..]);
    }
  }

  /** So the inserted order's total is the sum of its inserted lines. */
  lemma OrderTotalIsLineSum(p: Profile, a: AddressForm, slot: string, pay: string, orderId: string, items: seq<CartLine>)
    ensures OrderRequest(p, a, slot, pay, items).total == SubtotalSum(OrderLines(orderId, items))
  {
    OrderLinesSumToTotal(orderId, items);
  }

  /** One `products` update: the id and the stock it writes. */
  datatype StockWrite = StockWrite(productId: string, stock: int)

  /**
   * The `for` loop of step 3: for each line, in order, write the snapshot's
   * stock minus the quantity. Within the cart's stock bound no write is negative.
   */
  method StockWrites(items: seq<CartLine>) returns (writes: seq<StockWrite>)
    ensures |writes| == |items|
    ensures forall i :: 0 <= i < |items| ==>
      writes[i] == StockWrite(items[i].product.id, items[i].product.stock - items[i].quantity)
    ensures InStock(items) ==> forall i :: 0 <= i < |writes| ==> writes[i].stock >= 0
    ensures InStock(items) ==> forall i :: 0 <= i < |writes| ==> writes[i].stock < items[i].product.stock
  {
    writes := [];
    for i := 0 to |items|
      invariant |writes| == i
      invariant forall j :: 0 <= j < i ==>
        writes[j] == StockWrite(items[j].product.id, items[j].product.stock - items[j].quantity)
    {
      var line := items[i];
      writes := writes + [StockWrite(line.product.id, line.product.stock - line.quantity)];
    }
  }

  // ---------------------------------------------------------------------
  // The page

  const OrderErrorMessage := "Error al crear el pedido. Intenta de nuevo."
  const ItemsErrorMessage := "Error al guardar los productos del pedido."

  class CheckoutView {
    const cart: Cart
    var step: int
    var direction: int
    var selectedSlot: string
    var selectedPay: string
    var addressData: Option<AddressForm>
    var loading: bool
    var error: string

    function State(): WizardState
      reads this
    {
      WizardState(step, direction, selectedSlot, selectedPay, addressData)
    }

    constructor (cart: Cart)
      ensures this.cart == cart && State() == Initial && !loading && error == ""
    {
      this.cart := cart;
      step, direction, selectedSlot, selectedPay, addressData := 1, 1, "", "", None;
      loading, error := false, "";
    }

    /** Any wizard input; the state moves as `Transition` says and nothing else changes. */
    method Dispatch(e: WizardEvent)
      modifies this
      ensures State() == Transition(old(State()), e)
      ensures loading == old(loading) && error == old(error)
    {
      var s := Transition(State(), e);
      step, direction, selectedSlot, selectedPay, addressData := s.step, s.direction, s.slot, s.pay, s.addressData;
    }

    /**
     * `handleOrder`. `orderInsert` is the new order's id, or None when the
     * insert failed; `itemsInserted` is the second insert's outcome. The
     * stock updates' answers are not looked at.
     */
    method HandleOrder(profile: Option<Profile>, orderInsert: Option<string>, itemsInserted: bool)
      returns (request: Option<NewOrder>, lines: seq<OrderItem>, writes: seq<StockWrite>, target: Option<string>)
      modifies this, cart
      ensures State() == old(State())
      ensures var go := old(selectedPay) != "" && old(addressData).Some? && profile.Some?;
        && (go <==> request.Some?)
        && (!go ==> cart.items == old(cart.items) && loading == old(loading) && error == old(error)
                    && lines == [] && writes == [] && target == None)
        && (go ==> request.value == OrderRequest(profile.value, old(addressData).value, old(selectedSlot),
                                                 old(selectedPay), old(cart.items)))
        && (go ==> !loading)
        && (go && orderInsert.None? ==> error == OrderErrorMessage && cart.items == old(cart.items)
                                        && lines == [] && writes == [] && target == None)
        && (go && orderInsert.Some? ==> lines == OrderLines(orderInsert.value, old(cart.items)))
        && (go && orderInsert.Some? && !itemsInserted ==>
              error == ItemsErrorMessage && cart.items == old(cart.items) && writes == [] && target == None)
        && (go && orderInsert.Some? && itemsInserted ==>
              cart.items == [] && error == "" && |writes| == |old(cart.items)|
              && (forall i :: 0 <= i < |writes| ==>
                    writes[i] == StockWrite(old(cart.items)[i].product.id,
                                            old(cart.items)[i].product.stock - old(cart.items)[i].quantity))
              && target == Some("/orders?success=" + orderInsert.value))
        && (target.Some? ==> cart.items == [])
    {
      lines, writes, target := [], [], None;
      if selectedPay == "" || addressData.None? || profile.None? {
        return None, lines, writes, target;
      }
      loading := true;
      error := "";
      var items := cart.items;
      var total := cart.GetTotalPrice();
      request := Some(NewOrder(profile.value.id, Pending, addressData.value.address, profile.value.province,
                               profile.value.municipality, addressData.value.phone, selectedSlot, selectedPay,
                               total, addressData.value.notes));
      if orderInsert.None? {
        error := OrderErrorMessage;
        loading := false;
        return;
      }
      var orderId := orderInsert.value;
      lines := OrderLines(orderId, items);
      if !itemsInserted {
        error := ItemsErrorMessage;
        loading := false;
        return;
      }
      writes := StockWrites(items);
      cart.ClearCart();
      loading := false;
      target := Some("/orders?success=" + orderId);
    }
  }
}
