/**
 * The customer's order history (src/pages/OrdersPage.tsx): the status
 * chips and their counts, the "active" badge, the per-order progress strip
 * and the one-line summary of an order's items.
 */
module OrdersPage {
  import opened Domain
  import opened Text
  import opened Seqs
  import AdminOrders

  /** The chips' keys, 'all' first. */
  const FilterKeys: seq<string> := ["all", "pending", "confirmed", "on_the_way", "delivered", "cancelled"]

  predicate HasKey(o: Order, key: string) { StatusValue(o.status) == key }

  /** `filtered`: every order for 'all', else exactly the orders with that status, in order. */
  function Visible(orders: seq<Order>, key: string): (r: seq<Order>)
    ensures key == "all" ==> r == orders
    ensures key != "all" ==> Subseq(r, orders) && forall o :: o in r <==> o in orders && HasKey(o, key)
  {
    if key == "all" then orders else Filter(orders, (o: Order) => HasKey(o, key))
  }

  predicate IsActive(o: Order) { o.status == Pending || o.status == Confirmed || o.status == OnTheWay }

  /** `activeCount`. */
  function ActiveCount(orders: seq<Order>): nat
  {
    Count(orders, (o: Order) => IsActive(o))
  }

  /** A chip's count: the list's length for 'all', else the orders with that status. */
  function ChipCount(orders: seq<Order>, key: string): (r: nat)
    ensures r == |Visible(orders, key)|
  {
    if key == "all" then |orders| else Count(orders, (o: Order) => HasKey(o, key))
  }

  /** A status chip counts exactly the orders in that status. */
  lemma ChipIsStatusCount(orders: seq<Order>, s: Status)
    ensures ChipCount(orders, StatusValue(s)) == Count(orders, (o: Order) => o.status == s)
  {
    forall o: Order
      ensures HasKey(o, StatusValue(s)) == (o.status == s)
    {
      StatusValueInjective(o.status, s);
    }
    FilterSame(orders, (o: Order) => HasKey(o, StatusValue(s)), (o: Order) => o.status == s);
  }

  /** The five status chips add up to the 'all' chip. */
  lemma ChipsSumToAll(orders: seq<Order>)
    ensures ChipCount(orders, "pending") + ChipCount(orders, "confirmed") + ChipCount(orders, "on_the_way")
          + ChipCount(orders, "delivered") + ChipCount(orders, "cancelled") == ChipCount(orders, "all")
  {
    ChipIsStatusCount(orders, Pending);
    ChipIsStatusCount(orders, Confirmed);
    ChipIsStatusCount(orders, OnTheWay);
    ChipIsStatusCount(orders, Delivered);
    ChipIsStatusCount(orders, Cancelled);
    AdminOrders.StatusCountsSum(orders);
  }

  /** The badge counts pending, confirmed and on-the-way orders: the first three status chips. */
  lemma ActiveIsThreeChips(orders: seq<Order>)
    ensures ActiveCount(orders)
         == ChipCount(orders, "pending") + ChipCount(orders, "confirmed") + ChipCount(orders, "on_the_way")
  {
    ChipIsStatusCount(orders, Pending);
    ChipIsStatusCount(orders, Confirmed);
    ChipIsStatusCount(orders, OnTheWay);
    var u2 := (o: Order) => o.status == Pending || o.status == Confirmed;
    var u3 := (o: Order) => u2(o) || o.status == OnTheWay;
    CountDisjoint(orders, (o: Order) => o.status == Pending, (o: Order) => o.status == Confirmed, u2);
    CountDisjoint(orders, u2, (o: Order) => o.status == OnTheWay, u3);
    FilterSame(orders, u3, (o: Order) => IsActive(o));
  }

  // ---------------------------------------------------------------------
  // The progress strip

  /** `STEPS`' keys. */
  const StepKeys: seq<string> := ["pending", "confirmed", "on_the_way", "delivered"]

  /** `STEPS.findIndex(s => s.key === status)`, -1 when absent. */
  function FindKey(keys: seq<string>, key: string): (r: int)
    ensures -1 <= r < |keys|
    ensures r >= 0 ==> keys[r] == key && forall j :: 0 <= j < r ==> keys[j] != key
    ensures r == -1 <==> key !in keys
  {
    if keys == [] then -1
    else if keys[0] == key then 0
    else
      var k := FindKey(keys[1..], key);
      if k == -1 then -1 else k + 1
  }

  function CurrentIdx(s: Status): int
  {
    FindKey(StepKeys, StatusValue(s))
  }

  /** A cancelled order gets the banner; any other gets the strip. */
  predicate ShowsStrip(s: Status) { s != Cancelled }

  predicate StepDone(s: Status, i: int) { i <= CurrentIdx(s) }

  predicate StepCurrent(s: Status, i: int) { i == CurrentIdx(s) }

  /**
   * For a live order the strip's step i is done iff i is at most the
   * status's place among the four steps, and current iff it is that place;
   * the same places the admin timeline uses.
   */
  lemma StripMatchesStatus(s: Status)
    requires ShowsStrip(s)
    ensures 0 <= CurrentIdx(s) < 4 && StepKeys[CurrentIdx(s)] == StatusValue(s)
    ensures CurrentIdx(s) == AdminOrders.StepIndex(s)
    ensures forall i, j :: 0 <= j <= i < 4 && StepDone(s, i) ==> StepDone(s, j)
    ensures forall i :: 0 <= i < 4 && StepCurrent(s, i) ==> StepDone(s, i)
  {
    match s
    case Pending => assert CurrentIdx(s) == 0;
    case Confirmed => assert CurrentIdx(s) == 1;
    case OnTheWay => assert CurrentIdx(s) == 2;
    case Delivered => assert CurrentIdx(s) == 3;
  }

  // ---------------------------------------------------------------------
  // The item summary

  function Piece(i: OrderItem): string
  {
    i.productName + " ×" + IntToString(i.quantity)
  }

  function Pieces(items: seq<OrderItem>): (r: seq<string>)
    ensures |r| == |items| && forall k :: 0 <= k < |items| ==> r[k] == Piece(items[k])
  {
    if items == [] then [] else [Piece(items[0])] + Pieces(items[1..])
  }

  /** `order_items?.map(...).join(' · ')`; no lines render nothing. */
  function Summary(items: Option<seq<OrderItem>>): string
  {
    match items
    case None => ""
    case Some(lines) => Join(Pieces(lines), " · ")
  }

  /** One more line appends its "name ×qty" after one separator; one line has none. */
  lemma SummaryAppend(items: seq<OrderItem>, i: OrderItem)
    ensures Summary(Some([i])) == i.productName + " ×" + IntToString(i.quantity)
    ensures items != [] ==> Summary(Some(items + [i])) == Summary(Some(items)) + " · " + Piece(i)
  {
    assert Pieces([i]) == [Piece(i)];
    if items != [] {
      assert Pieces(items + [i]) == Pieces(items) + [Piece(i)];
      JoinAppend(Pieces(items), Piece(i), " · ");
    }
  }
}
