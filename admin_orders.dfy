/**
 * The admin's order desk (src/pages/admin/AdminOrders.tsx): the status
 * table and its lookup, the progress timeline, which status buttons are
 * offered, the list's filter and search, the header stats and the local
 * update after a status change.
 */
module AdminOrders {
  import opened Domain
  import opened Text
  import opened Seqs
  import CartStore
  import Checkout

  /** One row of `STATUSES` (icons and colours left aside). */
  datatype StatusEntry = StatusEntry(status: Status, value: string, labelText: string)

  const Statuses: seq<StatusEntry> := [
    StatusEntry(Pending, "pending", "Pendiente"),
    StatusEntry(Confirmed, "confirmed", "Confirmado"),
    StatusEntry(OnTheWay, "on_the_way", "En camino"),
    StatusEntry(Delivered, "delivered", "Entregado"),
    StatusEntry(Cancelled, "cancelled", "Cancelado")
  ]

  /** `NON_CANCELLED`: pending, confirmed, on the way, delivered. */
  const NonCancelled: seq<StatusEntry> := Statuses[..4]

  /** The table's rows agree with the backend's strings, and no value repeats. */
  lemma StatusesWellFormed()
    ensures |Statuses| == 5
    ensures forall i :: 0 <= i < 5 ==> Statuses[i].value == StatusValue(Statuses[i].status)
    ensures forall i, j :: 0 <= i < j < 5 ==> Statuses[i].value != Statuses[j].value
  {
  }

  /** The test NON_CANCELLED filters by. */
  predicate NotCancelled(e: StatusEntry)
  {
    e.value != "cancelled"
  }

  lemma LiveRowsKept()
    ensures Filter(NonCancelled, NotCancelled) == NonCancelled
  {
    forall x | x in NonCancelled
      ensures NotCancelled(x)
    {
    }
    FilterAll(NonCancelled, NotCancelled);
  }

  lemma CancelledRowDropped()
    ensures Filter(Statuses[4..], NotCancelled) == []
  {
  }

  /** NON_CANCELLED is the table filtered by value != 'cancelled', and lists the four live statuses in order. */
  lemma NonCancelledIsFilter()
    ensures NonCancelled == Filter(Statuses, NotCancelled)
    ensures [NonCancelled[0].status, NonCancelled[1].status, NonCancelled[2].status, NonCancelled[3].status]
         == [Pending, Confirmed, OnTheWay, Delivered]
  {
    assert Statuses == NonCancelled + Statuses[4..];
    FilterAppend(NonCancelled, Statuses[4..], NotCancelled);
    LiveRowsKept();
    CancelledRowDropped();
  }

  /** `STATUSES.find(s => s.value === value)` as an index. */
  function FindEntry(entries: seq<StatusEntry>, value: string): (r: Option<nat>)
    ensures r.Some? ==> r.value < |entries| && entries[r.value].value == value
    ensures r.Some? ==> forall j :: 0 <= j < r.value ==> entries[j].value != value
    ensures r.None? <==> forall j :: 0 <= j < |entries| ==> entries[j].value != value
  {
    if entries == [] then None
    else if entries[0].value == value then Some(0)
    else match FindEntry(entries[1..], value)
      case None => None
      case Some(k) => Some(k + 1)
  }

  /** `getStatus`: the row for a value, falling back to the first row. */
  function GetStatus(value: string): (r: StatusEntry)
    ensures r in Statuses
  {
    match FindEntry(Statuses, value)
    case Some(k) => Statuses[k]
    case None => Statuses[0]
  }

  /** A value held by exactly one row is found at that row. */
  lemma FindSoleEntry(entries: seq<StatusEntry>, k: nat, value: string)
    requires k < |entries| && entries[k].value == value
    requires forall j :: 0 <= j < |entries| && j != k ==> entries[j].value != value
    ensures FindEntry(entries, value) == Some(k)
  {
  }

  /** Looking up a status's own string finds its row; an unknown string shows as pending. */
  lemma GetStatusRoundTrip(s: Status, value: string)
    ensures GetStatus(StatusValue(s)).status == s && GetStatus(StatusValue(s)).value == StatusValue(s)
    ensures (forall t: Status :: value != StatusValue(t)) ==> GetStatus(value) == StatusEntry(Pending, "pending", "Pendiente")
  {
    StatusesWellFormed();
    var k := StepIndex(s);
    var i: nat := if k == -1 then 4 else k;
    assert Statuses[i].status == s;
    FindSoleEntry(Statuses, i, StatusValue(s));
    if forall t: Status :: value != StatusValue(t) {
      forall j | 0 <= j < |Statuses|
        ensures Statuses[j].value != value
      {
        assert Statuses[j].value == StatusValue(Statuses[j].status);
      }
    }
  }

  // ---------------------------------------------------------------------
  // Timeline and controls

  /** `findIndex` over NON_CANCELLED; -1 when absent (cancelled). */
  function StepIndex(s: Status): (r: int)
    ensures -1 <= r < 4
    ensures r == -1 <==> s == Cancelled
    ensures r >= 0 ==> NonCancelled[r].status == s
  {
    match s
    case Pending => 0
    case Confirmed => 1
    case OnTheWay => 2
    case Delivered => 3
    case Cancelled => -1
  }

  /** Step i shows as done. */
  predicate IsDone(current: Status, i: int) { i <= StepIndex(current) }

  /** Step i is the current one. */
  predicate IsCurrentStep(current: Status, i: int) { 0 <= i < 4 && NonCancelled[i].status == current }

  /** The done steps are a prefix ending at the current one, which is the only current step. */
  lemma TimelinePrefix(current: Status)
    requires current != Cancelled
    ensures forall i, j :: 0 <= j <= i < 4 && IsDone(current, i) ==> IsDone(current, j)
    ensures forall i :: 0 <= i < 4 ==> (IsCurrentStep(current, i) <==> i == StepIndex(current))
    ensures forall i :: 0 <= i < 4 ==> (IsDone(current, i) <==> i <= StepIndex(current))
  {
  }

  /** A cancelled order gets the banner and no timeline. */
  function ShowsTimeline(s: Status): (r: bool)
    ensures r <==> s != Cancelled
  {
    s != Cancelled
  }

  /** The timeline is drawn exactly when the order's status has a step on it, and then one step is current. */
  lemma TimelineHasCurrent(s: Status)
    ensures ShowsTimeline(s) <==> exists i :: 0 <= i < 4 && IsCurrentStep(s, i)
    ensures ShowsTimeline(s) ==> IsCurrentStep(s, StepIndex(s))
  {
    if !ShowsTimeline(s) {
      assert NonCancelled[0] == Statuses[0] && NonCancelled[1] == Statuses[1];
      assert NonCancelled[2] == Statuses[2] && NonCancelled[3] == Statuses[3];
      assert forall i :: 0 <= i < 4 ==> NonCancelled[i].status != Cancelled;
    } else {
      assert IsCurrentStep(s, StepIndex(s));
    }
  }

  /** `isFinalState`. */
  predicate IsFinal(s: Status) { s == Delivered || s == Cancelled }

  /**
   * The statuses whose buttons are enabled: none for a final order (the
   * controls are not rendered); otherwise none while an update is in flight,
   * else every NON_CANCELLED status but the current one, and 'cancelled'.
   */
  function Selectable(current: Status, updating: bool): (r: set<Status>)
    ensures current !in r
    ensures r == {} <==> IsFinal(current) || updating
  {
    if IsFinal(current) || updating then {}
    else (set e | e in NonCancelled && e.status != current :: e.status) + {Cancelled}
  }

  /** No forward-only rule: from a live order any other status can be set, backwards included. */
  lemma SelectableIsEveryOther(current: Status, updating: bool, target: Status)
    ensures target in Selectable(current, updating) <==> !IsFinal(current) && !updating && target != current
  {
    if !IsFinal(current) && !updating && target != current && target != Cancelled {
      var k := StepIndex(target);
      assert NonCancelled[k] in NonCancelled;
    }
  }

  // ---------------------------------------------------------------------
  // List, search, stats

  /** The client's name the search looks at: the profile's, or ''. */
  function ClientName(o: Order): string
  {
    match o.profile
    case Some(p) => p.fullName
    case None => ""
  }

  /** The search test: blank keeps everything; else the lowercased query in id, name, address or phone. */
  predicate SearchHit(o: Order, search: string)
  {
    var q := Lower(search);
    Trim(search) == []
    || Contains(Lower(o.id), q)
    || Contains(Lower(ClientName(o)), q)
    || Contains(Lower(o.deliveryAddress), q)
    || Contains(o.deliveryPhone, q)
  }

  predicate StatusHit(o: Order, filter: string)
  {
    filter == "all" || StatusValue(o.status) == filter
  }

  /** `filtered`: the status filter, then the search. */
  function Filtered(orders: seq<Order>, filter: string, search: string): (r: seq<Order>)
    ensures Subseq(r, orders)
    ensures forall o :: o in r <==> o in orders && StatusHit(o, filter) && SearchHit(o, search)
  {
    Filter(orders, (o: Order) => StatusHit(o, filter) && SearchHit(o, search))
  }

  /** The same list as the source's two chained filters. */
  lemma FilteredIsChained(orders: seq<Order>, filter: string, search: string)
    ensures Filtered(orders, filter, search)
         == Filter(Filter(orders, (o: Order) => StatusHit(o, filter)), (o: Order) => SearchHit(o, search))
  {
    FilterFilter(orders, (o: Order) => StatusHit(o, filter), (o: Order) => SearchHit(o, search),
                 (o: Order) => StatusHit(o, filter) && SearchHit(o, search));
  }

  /** 'all' with a blank search keeps every order. */
  lemma FilteredAllBlank(orders: seq<Order>, search: string)
    requires IsBlank(search)
    ensures Filtered(orders, "all", search) == orders
  {
    TrimEmptyIffBlank(search);
    var keep := (o: Order) => StatusHit(o, "all") && SearchHit(o, search);
    forall o | o in orders
      ensures keep(o)
    {
      assert Trim(search) == [];
    }
    FilterAll(orders, keep);
  }

  /** The header's three counters. */
  datatype Stats = Stats(pending: nat, active: nat, delivered: nat)

  function OrderStats(orders: seq<Order>): Stats
  {
    Stats(
      Count(orders, (o: Order) => o.status == Pending),
      Count(orders, (o: Order) => o.status == Confirmed || o.status == OnTheWay),
      Count(orders, (o: Order) => o.status == Delivered))
  }

  /** 'active' is confirmed plus on the way, and the counters never exceed the list. */
  lemma StatsParts(orders: seq<Order>)
    ensures OrderStats(orders).active
         == Count(orders, (o: Order) => o.status == Confirmed) + Count(orders, (o: Order) => o.status == OnTheWay)
    ensures OrderStats(orders).pending + OrderStats(orders).active + OrderStats(orders).delivered <= |orders|
  {
    var pen := (o: Order) => o.status == Pending;
    var con := (o: Order) => o.status == Confirmed;
    var way := (o: Order) => o.status == OnTheWay;
    var act := (o: Order) => o.status == Confirmed || o.status == OnTheWay;
    var del := (o: Order) => o.status == Delivered;
    var pa := (o: Order) => pen(o) || act(o);
    var pad := (o: Order) => pa(o) || del(o);
    CountDisjoint(orders, con, way, act);
    CountDisjoint(orders, pen, act, pa);
    CountDisjoint(orders, pa, del, pad);
  }

  /** Every order is in exactly one of the five statuses. */
  lemma {:induction false} StatusCountsSum(orders: seq<Order>)
    ensures Count(orders, (o: Order) => o.status == Pending) + Count(orders, (o: Order) => o.status == Confirmed)
          + Count(orders, (o: Order) => o.status == OnTheWay) + Count(orders, (o: Order) => o.status == Delivered)
          + Count(orders, (o: Order) => o.status == Cancelled) == |orders|
  {
    if orders != [] {
      StatusCountsSum(orders[1..]);
    }
  }

  /** A card's item count: the quantities of its lines, or 0 without lines. */
  function ItemCount(o: Order): int
  {
    match o.orderItems
    case None => 0
    case Some(items) => QuantitySum(items)
  }

  function QuantitySum(items: seq<OrderItem>): int
  {
    if items == [] then 0 else items[0].quantity + QuantitySum(items[1..])
  }

  /** An order placed from a cart shows the cart's item total on its card. */
  lemma {:induction false} ItemCountOfPlacedOrder(orderId: string, items: seq<CartLine>)
    ensures QuantitySum(Checkout.OrderLines(orderId, items)) == CartStore.TotalItems(items)
  {
    if items != [] {
      ItemCountOfPlacedOrder(orderId, items[1..]);
      assert Checkout.OrderLines(orderId, items)[1..] == Checkout.OrderLines(orderId, items[1..]);
    }
  }

  // ---------------------------------------------------------------------
  // The page's state

  datatype Toast = NoToast | UpdateFailed(message: string) | UpdateDone

  class AdminOrdersView {
    var selected: Option<Order>
    var loadingStatus: Option<Status>

    constructor ()
      ensures selected == None && loadingStatus == None
    {
      selected, loadingStatus := None, None;
    }

    /** A status button press: the backend call is now in flight. */
    method BeginStatusChange(newStatus: Status)
      modifies this
      ensures loadingStatus == Some(newStatus) && selected == old(selected)
    {
      loadingStatus := Some(newStatus);
    }

    /**
     * The backend's answer (`error` is its message, None on success): the
     * spinner goes; on success the open order is patched only if it is the
     * one that changed.
     */
    method FinishStatusChange(orderId: string, newStatus: Status, error: Option<string>) returns (toast: Toast)
      modifies this
      ensures loadingStatus == None
      ensures error.Some? ==> selected == old(selected) && toast == UpdateFailed(error.value)
      ensures error.None? ==> toast == UpdateDone
      ensures error.None? && old(selected).Some? && old(selected).value.id == orderId ==>
        selected == Some(old(selected).value.(status := newStatus))
      ensures error.None? && !(old(selected).Some? && old(selected).value.id == orderId) ==>
        selected == old(selected)
    {
      loadingStatus := None;
      if error.Some? {
        return UpdateFailed(error.value);
      }
      if selected.Some? && selected.value.id == orderId {
        selected := Some(selected.value.(status := newStatus));
      }
      toast := UpdateDone;
    }
  }
}
