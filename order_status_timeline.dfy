/**
 * An order's status history (src/components/orders/OrderStatusTimeline.tsx):
 * a copy of the history sorted by `changed_at`, one row per entry, the last
 * one marked current when it carries the order's status.
 */
module OrderStatusTimeline {
  import opened Domain

  // ---------------------------------------------------------------------
  // `[...history].sort((a, b) => time(a) - time(b))`, a stable sort

  /** Each entry is not later than the next. */
  predicate SortedByTime(s: seq<StatusChange>)
  {
    forall i :: 0 < i < |s| ==> s[i - 1].changedAt <= s[i].changedAt
  }

  /** In a sorted list every earlier entry is not later than every later one. */
  lemma {:induction false} SortedPairwise(s: seq<StatusChange>)
    requires SortedByTime(s)
    ensures forall i, j :: 0 <= i < j < |s| ==> s[i].changedAt <= s[j].changedAt
    decreases |s|
  {
    if |s| > 1 {
      var init := s[..|s| - 1];
      assert SortedByTime(init) by {
        forall i | 0 < i < |init|
          ensures init[i - 1].changedAt <= init[i].changedAt
        {
          assert init[i - 1] == s[i - 1] && init[i] == s[i];
        }
      }
      SortedPairwise(init);
      forall i, j | 0 <= i < j < |s|
        ensures s[i].changedAt <= s[j].changedAt
      {
        if j < |s| - 1 {
          assert s[i] == init[i] && s[j] == init[j];
        } else if i < j - 1 {
          assert s[i] == init[i] && s[j - 1] == init[j - 1];
        }
      }
    }
  }

  /** Put x in front of the first entry that is not earlier than it. */
  function Insert(x: StatusChange, s: seq<StatusChange>): (r: seq<StatusChange>)
    requires SortedByTime(s)
    ensures SortedByTime(r)
    ensures |r| == |s| + 1
    ensures r[0] == x || (s != [] && r[0] == s[0])
  {
    if s == [] || x.changedAt <= s[0].changedAt then
      PrependSorted(x, s);
      [x] + s
    else
      var rest := Insert(x, s[1..]);
      PrependSorted(s[0], rest);
      [s[0]] + rest
  }

  /** An entry not later than the head keeps a list sorted when put in front. */
  lemma PrependSorted(x: StatusChange, s: seq<StatusChange>)
    requires SortedByTime(s)
    requires s == [] || x.changedAt <= s[0].changedAt
    ensures SortedByTime([x] + s)
  {
    var r := [x] + s;
    forall i | 0 < i < |r|
      ensures r[i - 1].changedAt <= r[i].changedAt
    {
      assert r[i] == s[i - 1];
      if i > 1 {
        assert r[i - 1] == s[i - 2];
      }
    }
  }

  /** Inserting adds x and loses nothing. */
  lemma {:induction false} InsertPermutes(x: StatusChange, s: seq<StatusChange>)
    requires SortedByTime(s)
    ensures multiset(Insert(x, s)) == multiset(s) + multiset{x}
    decreases |s|
  {
    if s != [] && x.changedAt > s[0].changedAt {
      InsertPermutes(x, s[1..]);
      assert s == [s[0]] + s[1..];
    }
  }

  /** The sorted copy: ascending by time, the same entries as the history. */
  function SortByTime(history: seq<StatusChange>): (r: seq<StatusChange>)
    ensures SortedByTime(r)
    ensures multiset(r) == multiset(history)
    ensures |r| == |history|
  {
    if history == [] then []
    else
      assert history == [history[0]] + history[1..];
      InsertPermutes(history[0], SortByTime(history[1..]));
      Insert(history[0], SortByTime(history[1..]))
  }

  /** A history already in time order is shown as it is. */
  lemma {:induction false} SortSortedIsIdentity(history: seq<StatusChange>)
    requires SortedByTime(history)
    ensures SortByTime(history) == history
  {
    if history != [] {
      var tail := history[1..];
      assert SortedByTime(tail) by {
        forall i | 0 < i < |tail|
          ensures tail[i - 1].changedAt <= tail[i].changedAt
        {
          assert tail[i - 1] == history[i] && tail[i] == history[i + 1];
        }
      }
      SortSortedIsIdentity(tail);
      assert [history[0]] + tail == history;
      if tail != [] {
        assert history[1] == tail[0];
      }
    }
  }

  // ---------------------------------------------------------------------
  // The rows

  datatype Icon = ClipboardList | CheckCircle | Truck | Home | XCircle

  datatype StatusConfig = StatusConfig(caption: string, icon: Icon)

  /** `STATUS_CONFIG[status]`. */
  function Config(status: string): Option<StatusConfig>
  {
    if status == "pending" then Some(StatusConfig("Pedido recibido", ClipboardList))
    else if status == "confirmed" then Some(StatusConfig("Confirmado", CheckCircle))
    else if status == "on_the_way" then Some(StatusConfig("En camino", Truck))
    else if status == "delivered" then Some(StatusConfig("Entregado", Home))
    else if status == "cancelled" then Some(StatusConfig("Cancelado", XCircle))
    else None
  }

  datatype Row = Row(entry: StatusChange, caption: string, icon: Icon, isLast: bool, isCurrent: bool)

  /** Row i: label and icon from the config, else the raw status and the clipboard. */
  function RowAt(sorted: seq<StatusChange>, currentStatus: string, i: nat): (r: Row)
    requires i < |sorted|
    ensures r.entry == sorted[i]
    ensures Config(sorted[i].status).None? ==> r.caption == sorted[i].status && r.icon == ClipboardList
    ensures Config(sorted[i].status).Some? ==>
      r.caption == Config(sorted[i].status).value.caption && r.icon == Config(sorted[i].status).value.icon
    ensures r.isLast <==> i == |sorted| - 1
    ensures r.isCurrent <==> i == |sorted| - 1 && sorted[i].status == currentStatus
  {
    var e := sorted[i];
    var config := Config(e.status);
    var isLast := i == |sorted| - 1;
    Row(e,
        if config.Some? then config.value.caption else e.status,
        if config.Some? then config.value.icon else ClipboardList,
        isLast,
        e.status == currentStatus && isLast)
  }

  function Rows(history: seq<StatusChange>, currentStatus: string): (r: seq<Row>)
    ensures |r| == |history|
  {
    var sorted := SortByTime(history);
    seq(|sorted|, i requires 0 <= i < |sorted| => RowAt(sorted, currentStatus, i))
  }

  /** The vertical connector is drawn only with more than one entry. */
  function ShowsConnector(history: seq<StatusChange>): (r: bool)
    ensures r <==> |history| > 1
  {
    |SortByTime(history)| > 1
  }

  /** At most one row is current: the last one, and only when it carries the order's status. */
  lemma AtMostOneCurrent(history: seq<StatusChange>, currentStatus: string)
    ensures forall i, j :: 0 <= i < j < |history| ==>
      !(Rows(history, currentStatus)[i].isCurrent && Rows(history, currentStatus)[j].isCurrent)
    ensures forall i :: 0 <= i < |history| && Rows(history, currentStatus)[i].isCurrent ==>
      i == |history| - 1 && Rows(history, currentStatus)[i].entry.status == currentStatus
  {
  }

  /** Some row is highlighted exactly when the latest change carries the order's current status. */
  lemma CurrentIffLatest(history: seq<StatusChange>, currentStatus: string)
    ensures (exists i :: 0 <= i < |history| && Rows(history, currentStatus)[i].isCurrent) <==>
      history != [] && SortByTime(history)[|history| - 1].status == currentStatus
  {
    var sorted := SortByTime(history);
    var rows := Rows(history, currentStatus);
    if history != [] && sorted[|history| - 1].status == currentStatus {
      LatestIsCurrent(sorted, currentStatus, rows);
    }
    if exists i :: 0 <= i < |history| && rows[i].isCurrent {
      var i :| 0 <= i < |history| && rows[i].isCurrent;
      CurrentIsLatest(sorted, currentStatus, rows, i);
    }
  }

  lemma LatestIsCurrent(sorted: seq<StatusChange>, currentStatus: string, rows: seq<Row>)
    requires sorted != [] && sorted[|sorted| - 1].status == currentStatus
    requires rows == seq(|sorted|, i requires 0 <= i < |sorted| => RowAt(sorted, currentStatus, i))
    ensures rows[|sorted| - 1].isCurrent
  {
    assert rows[|sorted| - 1] == RowAt(sorted, currentStatus, |sorted| - 1);
  }

  lemma CurrentIsLatest(sorted: seq<StatusChange>, currentStatus: string, rows: seq<Row>, i: nat)
    requires rows == seq(|sorted|, i requires 0 <= i < |sorted| => RowAt(sorted, currentStatus, i))
    requires i < |rows| && rows[i].isCurrent
    ensures i == |sorted| - 1 && sorted[i].status == currentStatus
  {
    assert rows[i] == RowAt(sorted, currentStatus, i);
  }

  /** The five known statuses show five different captions. */
  lemma CaptionsDistinct(a: string, b: string)
    requires Config(a).Some? && Config(b).Some? && a != b
    ensures Config(a).value.caption != Config(b).value.caption
  {
  }

  /** The rows show the entries in time order, each entry once. */
  lemma RowsInTimeOrder(history: seq<StatusChange>, currentStatus: string)
    ensures var rows := Rows(history, currentStatus);
      (forall i, j :: 0 <= i < j < |rows| ==> rows[i].entry.changedAt <= rows[j].entry.changedAt)
      && multiset(seq(|rows|, i requires 0 <= i < |rows| => rows[i].entry)) == multiset(history)
  {
    RowsOrdered(history, currentStatus);
    RowsKeepEntries(history, currentStatus);
  }

  lemma RowsOrdered(history: seq<StatusChange>, currentStatus: string)
    ensures var rows := Rows(history, currentStatus);
      forall i, j :: 0 <= i < j < |rows| ==> rows[i].entry.changedAt <= rows[j].entry.changedAt
  {
    SortedPairwise(SortByTime(history));
  }

  lemma RowsKeepEntries(history: seq<StatusChange>, currentStatus: string)
    ensures var rows := Rows(history, currentStatus);
      multiset(seq(|rows|, i requires 0 <= i < |rows| => rows[i].entry)) == multiset(history)
  {
    var rows := Rows(history, currentStatus);
    assert seq(|rows|, i requires 0 <= i < |rows| => rows[i].entry) == SortByTime(history);
  }
}
