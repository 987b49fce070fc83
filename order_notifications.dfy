/**
 * The customer's live order notifications (src/hooks/useOrderNotifications.ts).
 * Each realtime UPDATE of one of the user's orders is compared with the
 * status last recorded for that order; only a real change is recorded, and
 * only a change to a status with a message raises a toast.
 */
module OrderNotifications {
  import opened Domain

  datatype Message = Message(emoji: string, title: string, description: string)

  /** `STATUS_MESSAGES`: pending has no entry. */
  function StatusMessage(status: string): (r: Option<Message>)
    ensures r.Some? <==> status in {"confirmed", "on_the_way", "delivered", "cancelled"}
  {
    if status == "confirmed" then
      Some(Message("✅", "Pedido confirmado", "Tu pedido ha sido confirmado y está siendo preparado."))
    else if status == "on_the_way" then
      Some(Message("🚚", "¡Tu pedido va en camino!", "El repartidor está en ruta hacia tu dirección."))
    else if status == "delivered" then
      Some(Message("🎉", "¡Pedido entregado!", "Tu pedido fue entregado. ¡Gracias por tu compra!"))
    else if status == "cancelled" then
      Some(Message("❌", "Pedido cancelado", "Tu pedido fue cancelado. Contáctanos si tienes dudas."))
    else None
  }

  /** The toast's title line. */
  function ToastTitle(m: Message): string
  {
    m.emoji + " " + m.title
  }

  /** The new row of an UPDATE payload; a missing status is None. */
  datatype Payload = Payload(orderId: string, status: Option<string>)

  /** The status a payload carries, if it is present and non-empty. */
  predicate HasStatus(p: Payload) { p.status.Some? && p.status.value != "" }

  /** The payload carries a status different from the last one recorded for its order. */
  predicate IsChange(prev: map<string, string>, p: Payload)
  {
    HasStatus(p) && !(p.orderId in prev && prev[p.orderId] == p.status.value)
  }

  /** The handler: the new record of last statuses, and the message to show, if any. */
  function Handle(prev: map<string, string>, p: Payload): (r: (map<string, string>, Option<Message>))
    ensures HasStatus(p) ==> p.orderId in r.0 && r.0[p.orderId] == p.status.value
    ensures !HasStatus(p) ==> r == (prev, None)
    ensures r.0.Keys == prev.Keys + (if HasStatus(p) then {p.orderId} else {})
  {
    if !IsChange(prev, p) then (prev, None)
    else (prev[p.orderId := p.status.value], StatusMessage(p.status.value))
  }

  /** The realtime channel's name; no channel without a signed-in user. */
  function ChannelName(userId: Option<string>): (r: Option<string>)
    ensures r.Some? <==> userId.Some? && userId.value != ""
    ensures r.Some? ==> r.value == "orders:user:" + userId.value
  {
    if userId.Some? && userId.value != "" then Some("orders:user:" + userId.value) else None
  }

  /** Two users never share a channel. */
  lemma ChannelsDistinct(u: string, v: string)
    requires u != v
    ensures ChannelName(Some(u)).Some? && ChannelName(Some(v)).Some? ==>
      ChannelName(Some(u)).value != ChannelName(Some(v)).value
  {
    if u != "" && v != "" {
      assert ChannelName(Some(u)).value[12..] == u;
      assert ChannelName(Some(v)).value[12..] == v;
    }
  }

  class Notifier {
    var prevStatuses: map<string, string>

    constructor ()
      ensures prevStatuses == map[]
    {
      prevStatuses := map[];
    }

    /** One payload: record a real change, then notify when the status has a message. */
    method OnPayload(p: Payload) returns (shown: Option<Message>)
      modifies this
      ensures (prevStatuses, shown) == Handle(old(prevStatuses), p)
    {
      if p.status.None? || p.status.value == "" {
        return None;
      }
      var newStatus := p.status.value;
      if p.orderId in prevStatuses && prevStatuses[p.orderId] == newStatus {
        return None;
      }
      prevStatuses := prevStatuses[p.orderId := newStatus];
      shown := StatusMessage(newStatus);
    }
  }

  // ---------------------------------------------------------------------

  /** A toast is shown only for a present, non-empty status different from the recorded one. */
  lemma NotifiesOnlyOnChange(prev: map<string, string>, p: Payload)
    ensures Handle(prev, p).1.Some? ==> IsChange(prev, p)
    ensures Handle(prev, p).1.Some? <==> IsChange(prev, p) && StatusMessage(p.status.value).Some?
  {
  }

  /** A change is recorded for its order even when there is no message for it; others stay. */
  lemma RecordsEveryChange(prev: map<string, string>, p: Payload)
    ensures IsChange(prev, p) ==> Handle(prev, p).0 == prev[p.orderId := p.status.value]
    ensures !IsChange(prev, p) ==> Handle(prev, p).0 == prev
    ensures forall k :: k != p.orderId ==>
      (k in Handle(prev, p).0 <==> k in prev) && (k in prev ==> Handle(prev, p).0[k] == prev[k])
  {
  }

  /** Pending updates are recorded but never notify. */
  lemma PendingIsSilent(prev: map<string, string>, orderId: string)
    ensures Handle(prev, Payload(orderId, Some("pending"))).1 == None
    ensures Handle(prev, Payload(orderId, Some("pending"))).0 == prev[orderId := "pending"]
  {
  }

  /** The same payload delivered twice gives at most one toast: the second is always silent. */
  lemma TwiceNotifiesOnce(prev: map<string, string>, p: Payload)
    ensures var (m1, _) := Handle(prev, p);
      Handle(m1, p) == (m1, None)
  {
  }

  /** Messages for a whole stream of payloads, in arrival order. */
  function Stream(prev: map<string, string>, ps: seq<Payload>): (r: (map<string, string>, seq<Message>))
    ensures |r.1| <= |ps|
    ensures |ps| > 0 && HasStatus(ps[|ps| - 1]) ==>
      ps[|ps| - 1].orderId in r.0 && r.0[ps[|ps| - 1].orderId] == ps[|ps| - 1].status.value
    decreases |ps|
  {
    if ps == [] then (prev, [])
    else
      var h := Handle(prev, ps[0]);
      var rest := Stream(h.0, ps[1..]);
      (rest.0, (if h.1.Some? then [h.1.value] else []) + rest.1)
  }

  /** Any number of copies of one payload give at most one toast. */
  lemma {:induction false} RepeatsNotifyOnce(prev: map<string, string>, p: Payload, ps: seq<Payload>)
    requires forall i :: 0 <= i < |ps| ==> ps[i] == p
    ensures |Stream(prev, ps).1| <= 1
    ensures |ps| > 0 ==> Stream(prev, ps).0 == Handle(prev, p).0
  {
    if ps != [] {
      assert ps[0] == p;
      var (m, shown) := Handle(prev, p);
      RepeatsSilent(m, p, ps[1..]);
    }
  }

  /** Once a payload's status is recorded, its copies are silent and change nothing. */
  lemma {:induction false} RepeatsSilent(m: map<string, string>, p: Payload, ps: seq<Payload>)
    requires Handle(m, p) == (m, None)
    requires forall i :: 0 <= i < |ps| ==> ps[i] == p
    ensures Stream(m, ps) == (m, [])
    decreases |ps|
  {
    if ps != [] {
      assert ps[0] == p;
      RepeatsSilent(m, p, ps[1..]);
      assert |Stream(m, ps).1| == 0;

    }
  }
}
