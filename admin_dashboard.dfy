/**
 * The admin dashboard (src/pages/admin/AdminDashboard.tsx): the six stat
 * cards, the orders-per-status pie, the lowest-stock bars and the
 * products-per-category tally, computed from one fetch of all orders and
 * all products.
 */
module AdminDashboard {
  import opened Domain
  import opened Seqs
  import opened Text
  import AdminOrders

  // ---------------------------------------------------------------------
  // The stat cards

  datatype Stats = Stats(
    totalOrders: nat,
    pendingOrders: nat,
    deliveredOrders: nat,
    totalProducts: nat,
    lowStockProducts: nat,
    totalRevenue: int)

  /** The sum of the orders' totals, in cents. */
  function TotalOf(orders: seq<Order>): int
  {
    if orders == [] then 0 else orders[0].total + TotalOf(orders[1..])
  }

  /**
   * The six cards. Pending and delivered are disjoint parts of all orders;
   * the active and low-stock counts never exceed the products (low stock
   * counts inactive products too).
   */
  function ComputeStats(orders: seq<Order>, products: seq<Product>): (s: Stats)
    ensures s.pendingOrders + s.deliveredOrders <= s.totalOrders == |orders|
    ensures s.totalProducts <= |products| && s.lowStockProducts <= |products|
  {
    var delivered := Filter(orders, (o: Order) => o.status == Delivered);
    CountDisjoint(orders, (o: Order) => o.status == Pending, (o: Order) => o.status == Delivered,
                  (o: Order) => o.status == Pending || o.status == Delivered);
    Stats(
      |orders|,
      Count(orders, (o: Order) => o.status == Pending),
      |delivered|,
      Count(products, (p: Product) => p.isActive),
      Count(products, (p: Product) => p.stock <= 5),
      TotalOf(delivered))
  }

  /** Revenue counts a delivered order's total and nothing from any other order. */
  lemma {:induction false} RevenueIsDeliveredOnly(orders: seq<Order>)
    ensures ComputeStats(orders, []).totalRevenue
         == (if orders == [] then 0
             else (if orders[0].status == Delivered then orders[0].total else 0)
                  + ComputeStats(orders[1..], []).totalRevenue)
  {
  }

  /** Only delivered orders add revenue: with none delivered it is 0. */
  lemma {:induction false} NoDeliveredNoRevenue(orders: seq<Order>)
    requires forall i :: 0 <= i < |orders| ==> orders[i].status != Delivered
    ensures ComputeStats(orders, []).totalRevenue == 0
  {
    if orders != [] {
      NoDeliveredNoRevenue(orders[1..]);
      RevenueIsDeliveredOnly(orders);
    }
  }

  /** What the fetch hands back: an error, or rows (possibly null). */
  datatype Query<T> = QueryError | QueryData(rows: Option<seq<T>>)

  function RowsOf<T>(q: Query<T>): seq<T>
    requires q.QueryData?
  {
    if q.rows.Some? then q.rows.value else []
  }

  /** What the page shows: the skeleton while loading, then the error view or the charts. */
  datatype Screen = Skeleton | ErrorView | Charts

  function ScreenOf(loading: bool, isOnline: bool, fetchError: bool): (r: Screen)
    ensures r == Charts <==> !loading && isOnline && !fetchError
    ensures r == ErrorView <==> !loading && (!isOnline || fetchError)
  {
    if loading then Skeleton else if !isOnline || fetchError then ErrorView else Charts
  }

  class Dashboard {
    var stats: Option<Stats>
    var orders: seq<Order>
    var products: seq<Product>
    var loading: bool
    var fetchError: bool

    /** The charts are drawn only from stats computed from the lists on screen. */
    predicate ChartsHaveData()
      reads this
    {
      ScreenOf(loading, true, fetchError) == Charts ==> stats == Some(ComputeStats(orders, products))
    }

    constructor ()
      ensures stats == None && orders == [] && products == [] && loading && !fetchError
      ensures ChartsHaveData()
    {
      stats, orders, products, loading, fetchError := None, [], [], true, false;
    }

    /**
     * `fetchAll`: either query failing (or the request throwing) sets the
     * error and leaves the stats and lists as they were.
     */
    method FetchAll(ordersRes: Query<Order>, productsRes: Query<Product>, thrown: bool)
      modifies this
      ensures ChartsHaveData()
      ensures !loading
      ensures var failed := thrown || ordersRes.QueryError? || productsRes.QueryError?;
        && (failed ==> fetchError && stats == old(stats) && orders == old(orders) && products == old(products))
        && (!failed ==> !fetchError && orders == RowsOf(ordersRes) && products == RowsOf(productsRes)
                        && stats == Some(ComputeStats(orders, products)))
    {
      fetchError := false;
      loading := true;
      if thrown {
        fetchError := true;
        loading := false;
        return;
      }
      if ordersRes.QueryError? || productsRes.QueryError? {
        fetchError := true;
        loading := false;
        return;
      }
      orders := RowsOf(ordersRes);
      products := RowsOf(productsRes);
      stats := Some(ComputeStats(orders, products));
      loading := false;
    }
  }

  // ---------------------------------------------------------------------
  // Orders per status

  /** `STATUS_LABELS`, in its declaration order. */
  const LabelOrder: seq<Status> := [Pending, Confirmed, OnTheWay, Delivered, Cancelled]

  function StatusLabel(s: Status): string
  {
    match s
    case Pending => "Pendiente"
    case Confirmed => "Confirmado"
    case OnTheWay => "En camino"
    case Delivered => "Entregado"
    case Cancelled => "Cancelado"
  }

  datatype Colour = Amber | Blue | Purple | Green | Red

  function StatusColour(s: Status): Colour
  {
    match s
    case Pending => Amber
    case Confirmed => Blue
    case OnTheWay => Purple
    case Delivered => Green
    case Cancelled => Red
  }

  datatype Slice = Slice(status: Status, name: string, value: nat, colour: Colour)

  /** How many orders have status s, counted head first. */
  function StatusCount(orders: seq<Order>, s: Status): (n: nat)
    ensures n <= |orders|
  {
    if orders == [] then 0 else (if orders[0].status == s then 1 else 0) + StatusCount(orders[1..], s)
  }

  /** The count is the length of `orders.filter(o => o.status === s)`. */
  lemma {:induction false} StatusCountIsFilterLength(orders: seq<Order>, s: Status)
    ensures StatusCount(orders, s) == Count(orders, (o: Order) => o.status == s)
    decreases |orders|
  {
    if orders != [] {
      StatusCountIsFilterLength(orders[1..], s);
    }
  }

  /** Every order has exactly one of the five statuses. */
  lemma {:induction false} StatusCountsAddUp(orders: seq<Order>)
    ensures StatusCount(orders, Pending) + StatusCount(orders, Confirmed) + StatusCount(orders, OnTheWay)
      + StatusCount(orders, Delivered) + StatusCount(orders, Cancelled) == |orders|
    decreases |orders|
  {
    if orders != [] {
      StatusCountsAddUp(orders[1..]);
    }
  }

  /** The slice of status s: its label, its colour and the number of orders with that status. */
  function SliceFor(orders: seq<Order>, s: Status): Slice
  {
    Slice(s, StatusLabel(s), StatusCount(orders, s), StatusColour(s))
  }

  function AllSlices(orders: seq<Order>, statuses: seq<Status>): (r: seq<Slice>)
    ensures |r| == |statuses| && forall i :: 0 <= i < |r| ==> r[i] == SliceFor(orders, statuses[i])
  {
    if statuses == [] then [] else [SliceFor(orders, statuses[0])] + AllSlices(orders, statuses[1..])
  }

  /** Every status has its slice in the full list. */
  lemma EverySliceListed(orders: seq<Order>)
    ensures forall s: Status :: SliceFor(orders, s) in AllSlices(orders, LabelOrder)
  {
    var all := AllSlices(orders, LabelOrder);
    forall s: Status
      ensures SliceFor(orders, s) in all
    {
      match s
      case Pending => assert all[0] == SliceFor(orders, s);
      case Confirmed => assert all[1] == SliceFor(orders, s);
      case OnTheWay => assert all[2] == SliceFor(orders, s);
      case Delivered => assert all[3] == SliceFor(orders, s);
      case Cancelled => assert all[4] == SliceFor(orders, s);
    }
  }

  /** `statusData`: one slice per status in label order, dropping the empty ones. */
  function StatusData(orders: seq<Order>): (r: seq<Slice>)
    ensures Subseq(r, AllSlices(orders, LabelOrder))
    ensures forall i :: 0 <= i < |r| ==> r[i].value > 0 && r[i] == SliceFor(orders, r[i].status)
    ensures forall s: Status :: StatusCount(orders, s) > 0 ==> SliceFor(orders, s) in r
  {
    var all := AllSlices(orders, LabelOrder);
    EverySliceListed(orders);
    Filter(all, (d: Slice) => d.value > 0)
  }

  function SliceSum(ds: seq<Slice>): int
  {
    if ds == [] then 0 else ds[0].value + SliceSum(ds[1..])
  }

  /** Dropping the empty slices leaves the sum as it was. */
  lemma {:induction false} SliceSumDropsZeros(ds: seq<Slice>)
    ensures SliceSum(Filter(ds, (d: Slice) => d.value > 0)) == SliceSum(ds)
  {
    if ds != [] {
      SliceSumDropsZeros(ds[1..]);
    }
  }

  lemma SliceSumOfFive(ds: seq<Slice>)
    requires |ds| == 5
    ensures SliceSum(ds) == ds[0].value + ds[1].value + ds[2].value + ds[3].value + ds[4].value
  {
    var d1 := ds[1..];
    var d2 := d1[1..];
    var d3 := d2[1..];
    var d4 := d3[1..];
    assert d4[1..] == [];
    assert SliceSum(d4) == ds[4].value;
    assert SliceSum(d3) == ds[3].value + ds[4].value;
    assert SliceSum(d2) == ds[2].value + ds[3].value + ds[4].value;
  }

  /** The pie accounts for every order: its slices add up to the number of orders. */
  lemma PieCoversAllOrders(orders: seq<Order>)
    ensures SliceSum(StatusData(orders)) == |orders|
  {
    var all := AllSlices(orders, LabelOrder);
    SliceSumDropsZeros(all);
    AllSlicesSum(orders);
  }

  /** Before the empty slices are dropped, the five slices add up to the number of orders. */
  lemma AllSlicesSum(orders: seq<Order>)
    ensures SliceSum(AllSlices(orders, LabelOrder)) == |orders|
  {
    var all := AllSlices(orders, LabelOrder);
    SliceSumOfFive(all);
    SliceValue(orders, 0, Pending);
    SliceValue(orders, 1, Confirmed);
    SliceValue(orders, 2, OnTheWay);
    SliceValue(orders, 3, Delivered);
    SliceValue(orders, 4, Cancelled);
    StatusCountsAddUp(orders);
  }

  lemma SliceValue(orders: seq<Order>, i: nat, s: Status)
    requires i < |LabelOrder| && LabelOrder[i] == s
    ensures AllSlices(orders, LabelOrder)[i].value == StatusCount(orders, s)
  {
  }

  // ---------------------------------------------------------------------
  // The stock bars

  /** Put p in front of the first product whose stock is not below its own. */
  function InsertByStock(p: Product, s: seq<Product>): (r: seq<Product>)
    requires StockAscending(s)
    ensures StockAscending(r)
    ensures |r| == |s| + 1
    ensures r[0] == p || (s != [] && r[0] == s[0])
  {
    if s == [] || p.stock <= s[0].stock then
      PrependAscending(p, s);
      [p] + s
    else
      var rest := InsertByStock(p, s[1..]);
      PrependAscending(s[0], rest);
      [s[0]] + rest
  }

  /** Inserting adds p and loses nothing. */
  lemma {:induction false} InsertByStockPermutes(p: Product, s: seq<Product>)
    requires StockAscending(s)
    ensures multiset(InsertByStock(p, s)) == multiset(s) + multiset{p}
    decreases |s|
  {
    if s != [] && p.stock > s[0].stock {
      InsertByStockPermutes(p, s[1..]);
      assert s == [s[0]] + s[1..];
    }
  }

  /** A product with no more stock than the head keeps a list ascending when put in front. */
  lemma PrependAscending(x: Product, s: seq<Product>)
    requires StockAscending(s)
    requires s == [] || x.stock <= s[0].stock
    ensures StockAscending([x] + s)
  {
    var r := [x] + s;
    forall i | 0 < i < |r|
      ensures r[i - 1].stock <= r[i].stock
    {
      assert r[i] == s[i - 1];
      if i > 1 {
        assert r[i - 1] == s[i - 2];
      }
    }
  }

  predicate StockAscending(s: seq<Product>)
  {
    forall i :: 0 < i < |s| ==> s[i - 1].stock <= s[i].stock
  }

  /** `.sort((a, b) => a.stock - b.stock)`, stable. */
  function SortByStock(s: seq<Product>): (r: seq<Product>)
    ensures StockAscending(r) && multiset(r) == multiset(s) && |r| == |s|
  {
    if s == [] then []
    else
      assert s == [s[0]] + s[1..];
      InsertByStockPermutes(s[0], SortByStock(s[1..]));
      InsertByStock(s[0], SortByStock(s[1..]))
  }

  /** The bar colour: red up to 5, amber up to 15, green above. */
  function Fill(stock: int): Colour
  {
    if stock <= 5 then Red else if stock <= 15 then Amber else Green
  }

  /**
   * A bar's label: a name over 18 UTF-16 code units becomes its first 18 and
   * an ellipsis. Where the 18th code unit is the first half of a pair, the
   * cut falls before that character (see "Left out").
   */
  function ShortName(name: string): (r: string)
    ensures Utf16Length(name) <= 18 ==> r == name
    ensures Utf16Length(name) > 18 ==>
      && 1 <= |r| <= |name| && r[|r| - 1] == '…' && r[..|r| - 1] <= name
      && 17 <= Utf16Length(r[..|r| - 1]) <= 18
      && Utf16Length(name[..|r|]) > 18
  {
    if Utf16Length(name) > 18 then
      var k := Utf16Cut(name, 18, |name|);
      assert name[..|name|] == name;
      assert name[..k + 1] == name[..k] + [name[k]];
      Utf16LengthSnoc(name[..k], name[k]);
      assert (name[..k] + "…")[..k] == name[..k];
      name[..k] + "…"
    else name
  }

  /**
   * A label has at most 19 code units; it equals the name exactly when the
   * name is short, or is 19 code units already ending in the ellipsis.
   */
  lemma ShortNameShape(name: string)
    ensures Utf16Length(ShortName(name)) <= 19
    ensures ShortName(name) == name <==>
      Utf16Length(name) <= 18 || (Utf16Length(name) == 19 && name[|name| - 1] == '…')
  {
    var r := ShortName(name);
    if Utf16Length(name) > 18 {
      assert r == r[..|r| - 1] + [r[|r| - 1]];
      Utf16LengthSnoc(r[..|r| - 1], r[|r| - 1]);
      var m := |name| - 1;
      assert name == name[..m] + [name[m]];
      Utf16LengthSnoc(name[..m], name[m]);
      if r == name {
        assert name[m] == '…';
      }
      if Utf16Length(name) == 19 && name[m] == '…' {
        var k := Utf16Cut(name, 18, |name|);
        assert name[..|name|] == name;
        assert k == m;
      }
    }
  }

  /** For a name inside the Basic Multilingual Plane, the label is the first 18 characters and the ellipsis. */
  lemma ShortNameInBmp(name: string)
    requires InBmp(name) && |name| > 18
    ensures ShortName(name) == name[..18] + "…"
  {
    Utf16LengthInBmp(name);
    var k := Utf16Cut(name, 18, |name|);
    assert InBmp(name[..18]);
    Utf16LengthInBmp(name[..18]);
    assert InBmp(name[..k]);
    Utf16LengthInBmp(name[..k]);
  }

  datatype Bar = Bar(product: Product, name: string, stock: int, fill: Colour)

  function BarFor(p: Product): Bar
  {
    Bar(p, ShortName(p.name), p.stock, Fill(p.stock))
  }

  function Bars(ps: seq<Product>): (r: seq<Bar>)
    ensures |r| == |ps| && forall i :: 0 <= i < |ps| ==> r[i] == BarFor(ps[i])
  {
    if ps == [] then [] else [BarFor(ps[0])] + Bars(ps[1..])
  }

  /** The products behind the bars: the active ones, lowest stock first, at most 8. */
  function LowestStock(products: seq<Product>): seq<Product>
  {
    var sorted := SortByStock(Filter(products, (p: Product) => p.isActive));
    if |sorted| > 8 then sorted[..8] else sorted
  }

  /** `stockData`: one bar per product of LowestStock. */
  function StockData(products: seq<Product>): seq<Bar>
  {
    Bars(LowestStock(products))
  }

  lemma LowestStockProperties(products: seq<Product>)
    ensures var r := LowestStock(products);
      |r| <= 8
      && (forall i :: 0 <= i < |r| ==> r[i] in products && r[i].isActive)
      && StockAscending(r)
      && |r| == (if Count(products, (p: Product) => p.isActive) > 8 then 8
                 else Count(products, (p: Product) => p.isActive))
  {
    var active := Filter(products, (p: Product) => p.isActive);
    var sorted := SortByStock(active);
    var shown := LowestStock(products);
    forall i | 0 <= i < |shown|
      ensures shown[i] in products && shown[i].isActive
    {
      assert shown[i] == sorted[i];
      assert sorted[i] in multiset(active);
    }
  }

  /**
   * The bars are at most 8 active products in ascending stock; each is
   * coloured red iff stock <= 5 and amber iff 5 < stock <= 15.
   */
  lemma StockDataProperties(products: seq<Product>)
    ensures var r := StockData(products);
      |r| <= 8
      && (forall i :: 0 <= i < |r| ==> r[i].product in products && r[i].product.isActive)
      && (forall i :: 0 < i < |r| ==> r[i - 1].stock <= r[i].stock)
      && (forall i :: 0 <= i < |r| ==>
            (r[i].fill == Red <==> r[i].stock <= 5) && (r[i].fill == Amber <==> 5 < r[i].stock <= 15))
      && |r| == (if Count(products, (p: Product) => p.isActive) > 8 then 8
                 else Count(products, (p: Product) => p.isActive))
  {
    LowestStockProperties(products);
    BarsFollow(LowestStock(products));
  }

  /** Each bar carries its product and stock, and its colour follows the stock bands. */
  lemma BarsFollow(ps: seq<Product>)
    ensures var r := Bars(ps);
      && (forall i :: 0 <= i < |r| ==> r[i].product == ps[i] && r[i].stock == ps[i].stock)
      && (forall i :: 0 <= i < |r| ==>
            (r[i].fill == Red <==> r[i].stock <= 5) && (r[i].fill == Amber <==> 5 < r[i].stock <= 15))
      && (StockAscending(ps) ==> forall i :: 0 < i < |r| ==> r[i - 1].stock <= r[i].stock)
  {
  }

  /** In an ascending list every earlier product has no more stock than any later one. */
  lemma {:induction false} StockPairwise(s: seq<Product>)
    requires StockAscending(s)
    ensures forall i, j :: 0 <= i < j < |s| ==> s[i].stock <= s[j].stock
    decreases |s|
  {
    if |s| > 1 {
      var init := s[..|s| - 1];
      assert StockAscending(init) by {
        forall i | 0 < i < |init|
          ensures init[i - 1].stock <= init[i].stock
        {
          assert init[i - 1] == s[i - 1] && init[i] == s[i];
        }
      }
      StockPairwise(init);
      forall i, j | 0 <= i < j < |s|
        ensures s[i].stock <= s[j].stock
      {
        if j < |s| - 1 {
          assert s[i] == init[i] && s[j] == init[j];
        } else if i < j - 1 {
          assert s[i] == init[i] && s[j - 1] == init[j - 1];
        }
      }
    }
  }

  /** The bars are the lowest stock: an active product with less stock than the last bar has a bar of its own. */
  lemma NoLowerStockLeftOut(products: seq<Product>, p: Product)
    requires p in products && p.isActive
    requires |StockData(products)| > 0 && p.stock < StockData(products)[|StockData(products)| - 1].stock
    ensures exists i :: 0 <= i < |StockData(products)| && StockData(products)[i].product == p
  {
    var active := Filter(products, (q: Product) => q.isActive);
    var sorted := SortByStock(active);
    var shown := LowestStock(products);
    assert p in multiset(sorted) by {
      assert p in active;
    }
    var k :| 0 <= k < |sorted| && sorted[k] == p;
    var last := |shown| - 1;
    assert sorted[last] == shown[last];
    StockPairwise(sorted);
    assert k < |shown|;
    assert StockData(products)[k].product == shown[k];
  }

  // ---------------------------------------------------------------------
  // Products per category

  const NoCategory := "Sin categoría"

  function CategoryName(p: Product): string
  {
    if p.category.Some? then p.category.value.name else NoCategory
  }

  function Names(ps: seq<Product>): (r: seq<string>)
    ensures |r| == |ps| && forall i :: 0 <= i < |ps| ==> r[i] == CategoryName(ps[i])
  {
    if ps == [] then [] else Names(ps[..|ps| - 1]) + [CategoryName(ps[|ps| - 1])]
  }

  /**
   * The distinct names in order of first appearance: the order in which the
   * tally creates its keys.
   */
  function Dedup(s: seq<string>): (r: seq<string>)
    ensures forall x :: x in r <==> x in s
    ensures forall i, j :: 0 <= i < j < |r| ==> r[i] != r[j]
  {
    if s == [] then []
    else
      var d := Dedup(s[..|s| - 1]);
      assert forall x :: x in s <==> x in s[..|s| - 1] || x == s[|s| - 1];
      if s[|s| - 1] in d then d else d + [s[|s| - 1]]
  }

  /** How many times n occurs in s. */
  function Occurrences(s: seq<string>, n: string): nat
  {
    if s == [] then 0 else Occurrences(s[..|s| - 1], n) + (if s[|s| - 1] == n then 1 else 0)
  }

  /** The sum, over the keys, of the values. */
  function SumOver(keys: seq<string>, counts: map<string, nat>): int
    requires forall k :: k in keys ==> k in counts
  {
    if keys == [] then 0 else counts[keys[0]] + SumOver(keys[1..], counts)
  }

  /** Raising one key of a duplicate-free key list by one raises the sum by one. */
  lemma {:induction false} SumOverBump(keys: seq<string>, counts: map<string, nat>, k: string)
    requires forall x :: x in keys ==> x in counts
    requires forall i, j :: 0 <= i < j < |keys| ==> keys[i] != keys[j]
    requires k in counts
    ensures SumOver(keys, counts[k := counts[k] + 1]) == SumOver(keys, counts) + (if k in keys then 1 else 0)
  {
    if keys != [] {
      assert forall x :: x in keys[1..] ==> x in keys;
      assert forall j :: 0 <= j < |keys[1..]| ==> keys[1..][j] == keys[j + 1];
      assert keys[0] !in keys[1..];
      SumOverBump(keys[1..], counts, k);
    }
  }

  /** A new key, absent from the list, does not change the sum of the others. */
  lemma {:induction false} SumOverFresh(keys: seq<string>, counts: map<string, nat>, k: string, v: nat)
    requires forall x :: x in keys ==> x in counts
    requires k !in keys
    ensures SumOver(keys, counts[k := v]) == SumOver(keys, counts)
  {
    if keys != [] {
      SumOverFresh(keys[1..], counts, k, v);
    }
  }

  lemma SumOverAppend(keys: seq<string>, counts: map<string, nat>, k: string)
    requires forall x :: x in keys ==> x in counts
    requires k in counts
    ensures SumOver(keys + [k], counts) == SumOver(keys, counts) + counts[k]
    decreases |keys|
  {
    if keys == [] {
      assert [] + [k] == [k];
    } else {
      assert (keys + [k])[1..] == keys[1..] + [k];
      SumOverAppend(keys[1..], counts, k);
    }
  }

  lemma NamesStep(ps: seq<Product>, i: nat)
    requires i < |ps|
    ensures Names(ps[..i + 1]) == Names(ps[..i]) + [CategoryName(ps[i])]
  {
    assert ps[..i + 1][..i] == ps[..i];
  }

  lemma DedupSnoc(s: seq<string>, x: string)
    ensures Dedup(s + [x]) == if x in Dedup(s) then Dedup(s) else Dedup(s) + [x]
  {
    assert (s + [x])[..|s|] == s;
  }

  lemma OccurrencesSnoc(s: seq<string>, x: string)
    ensures forall n :: Occurrences(s + [x], n) == Occurrences(s, n) + (if x == n then 1 else 0)
  {
    assert (s + [x])[..|s|] == s;
  }

  lemma {:induction false} OccurrencesAbsent(s: seq<string>, n: string)
    requires n !in s
    ensures Occurrences(s, n) == 0
  {
    if s != [] {
      OccurrencesAbsent(s[..|s| - 1], n);
    }
  }

  /** keys and counts are the tally of the names s: first appearances, occurrences, and a total of |s|. */
  ghost predicate IsTally(s: seq<string>, keys: seq<string>, counts: map<string, nat>)
  {
    && keys == Dedup(s)
    && (forall k :: k in counts <==> k in keys)
    && (forall k :: k in counts ==> counts[k] == Occurrences(s, k))
    && SumOver(keys, counts) == |s|
  }

  /** Counting one more name keeps the tally. */
  lemma TallyStep(s: seq<string>, keys: seq<string>, counts: map<string, nat>, x: string)
    requires IsTally(s, keys, counts)
    ensures x in counts ==> IsTally(s + [x], keys, counts[x := counts[x] + 1])
    ensures x !in counts ==> IsTally(s + [x], keys + [x], counts[x := 1])
  {
    if x in counts {
      TallyBump(s, keys, counts, x);
    } else {
      TallyFresh(s, keys, counts, x);
    }
  }

  lemma TallyBump(s: seq<string>, keys: seq<string>, counts: map<string, nat>, x: string)
    requires IsTally(s, keys, counts) && x in counts
    ensures IsTally(s + [x], keys, counts[x := counts[x] + 1])
  {
    assert x in Dedup(s);
    DedupSnoc(s, x);
    BumpOccurrences(s, counts, x);
    SumOverBump(keys, counts, x);
  }

  lemma BumpOccurrences(s: seq<string>, counts: map<string, nat>, x: string)
    requires x in counts
    requires forall k :: k in counts ==> counts[k] == Occurrences(s, k)
    ensures forall k :: k in counts[x := counts[x] + 1] ==> counts[x := counts[x] + 1][k] == Occurrences(s + [x], k)
  {
    OccurrencesSnoc(s, x);
  }

  lemma TallyFresh(s: seq<string>, keys: seq<string>, counts: map<string, nat>, x: string)
    requires IsTally(s, keys, counts) && x !in counts
    ensures IsTally(s + [x], keys + [x], counts[x := 1])
  {
    DedupSnoc(s, x);
    FreshOccurrences(s, keys, counts, x);
    FreshSum(s, keys, counts, x);
  }

  lemma FreshOccurrences(s: seq<string>, keys: seq<string>, counts: map<string, nat>, x: string)
    requires IsTally(s, keys, counts) && x !in counts
    ensures forall k :: k in counts[x := 1] ==> counts[x := 1][k] == Occurrences(s + [x], k)
  {
    OccurrencesSnoc(s, x);
    OccurrencesAbsent(s, x);
  }

  lemma FreshSum(s: seq<string>, keys: seq<string>, counts: map<string, nat>, x: string)
    requires IsTally(s, keys, counts) && x !in counts
    ensures SumOver(keys + [x], counts[x := 1]) == |s| + 1
  {
    SumOverFresh(keys, counts, x, 1);
    SumOverAppend(keys, counts[x := 1], x);
  }

  /**
   * `categoryData`'s `forEach`: count each product under its category's
   * name, creating a key the first time a name is seen. The keys are the
   * names in order of first appearance, each value is how many products
   * carry that name, and the values add up to the number of products. The
   * tally is a map from names, not a JavaScript object: the order in which
   * `Object.entries` lists integer-like keys, and the keys an object
   * inherits, are not modelled.
   */
  method CategoryData(products: seq<Product>) returns (keys: seq<string>, counts: map<string, nat>)
    ensures keys == Dedup(Names(products))
    ensures forall k :: k in counts <==> k in keys
    ensures forall k :: k in counts ==> counts[k] == Occurrences(Names(products), k)
    ensures SumOver(keys, counts) == |products|
  {
    keys, counts := [], map[];
    for i := 0 to |products|
      invariant IsTally(Names(products[..i]), keys, counts)
    {
      var cat := CategoryName(products[i]);
      NamesStep(products, i);
      TallyStep(Names(products[..i]), keys, counts, cat);
      if cat in counts {
        counts := counts[cat := counts[cat] + 1];
      } else {
        counts := counts[cat := 1];
        keys := keys + [cat];
      }
    }
    assert products[..|products|] == products;
  }
}
