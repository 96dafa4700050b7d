/** The provider's status-change notification (webhook.php): find the ledger
    row of the notified order, fetch the order from the provider, map its
    status onto a local order state, and add an order-history row only when
    that state differs from the order's current one, so that a redelivered
    notification changes nothing. */
module Webhook {
  import opened Base
  import opened Domain

  /** The decoded request body: its order_id and event ("" where absent). */
  datatype Notification = Notification(orderId: string, event: string)

  /** The only event the endpoint acts on. */
  const StatusChanged := "status_changed"

  /** The six statuses the mapping knows. */
  predicate KnownStatus(status: string) {
    status == "new" || status == "processing" || status == "completed"
    || status == "error" || status == "cancelled" || status == "expired"
  }

  /** The local order state for the provider's status: new and processing
      become preparation; completed becomes the module's authorized state
      when the first transaction is an authorization and payment-accepted
      otherwise; error becomes error; cancelled and expired become canceled.
      Any other status maps to nothing. */
  function MappedState(snap: Snapshot, ids: StateIds): (r: Option<int>)
    ensures r.Some? <==> KnownStatus(snap.status)
    ensures snap.status == "new" || snap.status == "processing" ==> r == Some(ids.preparation)
    ensures snap.status == "completed" && FirstIsAuthorization(snap) ==> r == Some(ids.authorized)
    ensures snap.status == "completed" && !FirstIsAuthorization(snap) ==> r == Some(ids.payment)
    ensures snap.status == "error" ==> r == Some(ids.error)
    ensures snap.status == "cancelled" || snap.status == "expired" ==> r == Some(ids.canceled)
  {
    if snap.status == "new" || snap.status == "processing" then Some(ids.preparation)
    else if snap.status == "completed" then
      if FirstIsAuthorization(snap) then Some(ids.authorized) else Some(ids.payment)
    else if snap.status == "error" then Some(ids.error)
    else if snap.status == "cancelled" || snap.status == "expired" then Some(ids.canceled)
    else None
  }

  /** What one delivery does: the effects it has, in order, and the order
      states afterwards. */
  datatype Delivery = Delivery(effects: seq<Effect>, states: map<nat, int>)

  /** The history row a delivery writes, if any: when the ledger row has a
      local order, the fetched order maps to a state, and that state is not
      the order's current one. */
  function StateChange(row: LedgerRow, reply: Option<Snapshot>, states: map<nat, int>, ids: StateIds): Option<HistoryEntry>
  {
    if reply.None? || row.orderId == 0 then None
    else match MappedState(reply.value, ids)
      case None => None
      case Some(st) =>
        if CurrentState(states, row.orderId) == st then None else Some(HistoryEntry(row.orderId, st))
  }

  /** One delivery of notification n. reply is what the provider's getOrder
      yields for the notified order (None when it is empty or the call
      fails); only the event being status_changed and a matching ledger row
      lead to that call. The result: no effect for any other event or an
      unknown order; otherwise the fetch, followed by exactly one history row
      when the row has a local order whose current state differs from the
      mapped one, and by nothing else. The ledger is only read. */
  function Deliver(n: Notification, ledger: seq<LedgerRow>, reply: Option<Snapshot>,
                   states: map<nat, int>, ids: StateIds): (d: Delivery)
    ensures n.event != StatusChanged ==> d == Delivery([], states)
    ensures RowByExternalId(ledger, n.orderId).None? ==> d == Delivery([], states)
    ensures |d.effects| > 0 <==> n.event == StatusChanged && RowByExternalId(ledger, n.orderId).Some?
    ensures |d.effects| > 0 ==> d.effects[0] == Request(GetOrder(n.orderId))
    ensures |d.effects| <= 2
    ensures |d.effects| == 2 <==>
      n.event == StatusChanged && RowByExternalId(ledger, n.orderId).Some? && reply.Some?
      && RowByExternalId(ledger, n.orderId).value.orderId != 0
      && MappedState(reply.value, ids).Some?
      && CurrentState(states, RowByExternalId(ledger, n.orderId).value.orderId) != MappedState(reply.value, ids).value
    ensures |d.effects| == 2 ==>
      var id := RowByExternalId(ledger, n.orderId).value.orderId;
      var st := MappedState(reply.value, ids).value;
      d.effects[1] == HistoryAdded(HistoryEntry(id, st)) && d.states == states[id := st]
    ensures |d.effects| < 2 ==> d.states == states
  {
    if n.event != StatusChanged then Delivery([], states)
    else match RowByExternalId(ledger, n.orderId)
      case None => Delivery([], states)
      case Some(row) =>
        var fetch := [Request(GetOrder(n.orderId))];
        match StateChange(row, reply, states, ids)
        case None => Delivery(fetch, states)
        case Some(e) => Delivery(fetch + [HistoryAdded(e)], states[e.orderId := e.state])
  }

  /** Replaying a notification whose snapshot has already been applied adds
      no history row and changes no state. */
  lemma ReplayChangesNothing(n: Notification, ledger: seq<LedgerRow>, reply: Option<Snapshot>,
                             states: map<nat, int>, ids: StateIds)
    ensures var first := Deliver(n, ledger, reply, states, ids);
            var again := Deliver(n, ledger, reply, first.states, ids);
            again.states == first.states && |again.effects| <= 1
  {
  }

  /** Two notifications for an order in preparation, the first with an
      authorized "completed" snapshot and the second with a settled one:
      each writes one history row, authorized then payment-accepted, and the
      order ends payment-accepted. */
  lemma AuthorizedThenPaid(n: Notification, ledger: seq<LedgerRow>, authorized: Snapshot, settled: Snapshot,
                           states: map<nat, int>, ids: StateIds)
    requires n.event == StatusChanged
    requires RowByExternalId(ledger, n.orderId).Some?
    requires RowByExternalId(ledger, n.orderId).value.orderId != 0
    requires CurrentState(states, RowByExternalId(ledger, n.orderId).value.orderId) == ids.preparation
    requires ids.preparation != ids.authorized && ids.authorized != ids.payment
    requires authorized.status == "completed" && FirstIsAuthorization(authorized)
    requires settled.status == "completed" && !FirstIsAuthorization(settled)
    ensures var id := RowByExternalId(ledger, n.orderId).value.orderId;
            var d1 := Deliver(n, ledger, Some(authorized), states, ids);
            var d2 := Deliver(n, ledger, Some(settled), d1.states, ids);
            && d1.effects == [Request(GetOrder(n.orderId)), HistoryAdded(HistoryEntry(id, ids.authorized))]
            && d2.effects == [Request(GetOrder(n.orderId)), HistoryAdded(HistoryEntry(id, ids.payment))]
            && CurrentState(d2.states, id) == ids.payment
  {
  }

  /** webhook.php as a procedure on the shop: the effects of the delivery are
      appended to the shop's log and the order states become the delivery's. */
  method HandleNotification(shop: Shop, n: Notification, ledger: seq<LedgerRow>,
                            reply: Option<Snapshot>, ids: StateIds)
    modifies shop`log, shop`states
    ensures shop.log == old(shop.log) + Deliver(n, ledger, reply, old(shop.states), ids).effects
    ensures shop.states == Deliver(n, ledger, reply, old(shop.states), ids).states
  {
    if n.event != StatusChanged {
      return;
    }
    var row := RowByExternalId(ledger, n.orderId);
    if row.None? {
      return;
    }
    shop.log := shop.log + [Request(GetOrder(n.orderId))];
    if reply.None? || row.value.orderId == 0 {
      return;
    }
    var status := MappedState(reply.value, ids);
    // A status outside the six leaves the source's $order_status unassigned; nothing is written here.
    if status.Some? && CurrentState(shop.states, row.value.orderId) != status.value {
      shop.states := shop.states[row.value.orderId := status.value];
      shop.log := shop.log + [HistoryAdded(HistoryEntry(row.value.orderId, status.value))];
    }
  }
}
