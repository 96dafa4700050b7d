/** The two order-side decision procedures of GingerPlugin: what the module
    does with the provider when a local order changes state (capture on
    shipping or payment, void on cancellation), and a refund request. Each is
    a specification function giving the requests issued and the result, plus
    a procedure on the shop that performs them step by step. */
module OrderHooks {
  import opened Base
  import opened Domain

  // ================================================ order-status update

  /** The local status change the hook is told about: the new state id and
      the provider order id the ledger holds for the local order. */
  datatype StatusChange = StatusChange(newStatus: int, externalOrderId: string)

  /** The requests the hook issues, in order, and what it returns. */
  datatype HookOutcome = HookOutcome(calls: seq<PspCall>, ok: bool)

  /** The endpoint a void is posted to: /orders/{order}/transactions/{transaction}/voids/amount. */
  function VoidPath(orderId: string, transactionId: string): string {
    "/orders/" + orderId + "/transactions/" + transactionId + "/voids/amount"
  }

  /** "Void %s of the full %s on order %s ". */
  function VoidDescription(snap: Snapshot): string {
    "Void " + NatToString(snap.amount) + " of the full " + NatToString(snap.amount)
    + " on order " + snap.merchantOrderId + " "
  }

  /** The hook takes its capture branch for this change: shipped, for a
      module that supports capture; or paid, when manual capture is
      switched on in the configuration. */
  predicate CaptureRoute(capturable: bool, change: StatusChange, config: Config, ids: StateIds) {
    (capturable && change.newStatus == ids.shipping)
    || (!(capturable && change.newStatus == ids.shipping) && change.newStatus == ids.payment
        && Truthy(ConfigValue(config, ManualCaptureKey)))
  }

  /** The hook takes its void branch: canceled (and not one of the capture
      branches' statuses), with manual capture switched on. */
  predicate VoidRoute(capturable: bool, change: StatusChange, config: Config, ids: StateIds) {
    !(capturable && change.newStatus == ids.shipping) && change.newStatus != ids.payment
    && change.newStatus == ids.canceled && Truthy(ConfigValue(config, ManualCaptureKey))
  }

  predicate IssuesCapture(calls: seq<PspCall>) {
    |calls| == 2 && calls[1].CaptureOrderTransaction?
  }

  predicate IssuesVoid(calls: seq<PspCall>) {
    |calls| == 2 && calls[1].Send?
  }

  /** The capture branch: fetch the order; stop unless its first transaction
      is capturable and it has no capture yet; otherwise capture that
      transaction. A call that throws ends the hook with false. */
  function TryCapture(orderId: string, reply: Result<Snapshot>, actionThrows: bool): HookOutcome {
    var fetch := [GetOrder(orderId)];
    match reply
    case Threw => HookOutcome(fetch, false)
    case Ok(snap) =>
      if !FirstIsCapturable(snap) || "has-captures" in snap.flags then HookOutcome(fetch, true)
      else HookOutcome(fetch + [CaptureOrderTransaction(orderId, snap.transactions[0].id)], !actionThrows)
  }

  /** The void branch: fetch the order; stop when its status is falsy (the
      source's `!$status == 'completed'` parses as `(!$status) == 'completed'`,
      so a non-empty status other than completed does NOT stop it), when the
      first transaction is not an authorization, or when it has a capture or
      a void already; otherwise void the full amount of that transaction. */
  function TryVoid(orderId: string, reply: Result<Snapshot>, actionThrows: bool): (o: HookOutcome)
    ensures |o.calls| >= 1 && o.calls[0] == GetOrder(orderId) && |o.calls| <= 2
    ensures |o.calls| == 2 <==>
      reply.Ok? && Truthy(reply.value.status) && FirstIsAuthorization(reply.value)
      && "has-captures" !in reply.value.flags && "has-voids" !in reply.value.flags
    ensures |o.calls| == 2 ==>
      o.calls[1] == Send("POST", VoidPath(reply.value.id, reply.value.transactions[0].id),
                         reply.value.amount, VoidDescription(reply.value))
    ensures !o.ok <==> reply.Threw? || (|o.calls| == 2 && actionThrows)
  {
    var fetch := [GetOrder(orderId)];
    match reply
    case Threw => HookOutcome(fetch, false)
    case Ok(snap) =>
      if !Truthy(snap.status) || !FirstIsAuthorization(snap)
         || "has-captures" in snap.flags || "has-voids" in snap.flags
      then HookOutcome(fetch, true)
      else
        var call := Send("POST", VoidPath(snap.id, snap.transactions[0].id), snap.amount, VoidDescription(snap));
        HookOutcome(fetch + [call], !actionThrows)
  }

  /** hookActionOrderStatusUpdate. capturable says whether the module
      supports capture; reply is what getOrder yields; actionThrows says
      whether the capture or void request, if issued, throws.
      - The order is fetched exactly when a capture or void branch applies,
        and nothing else is requested otherwise.
      - A capture is issued iff a capture branch applies, the fetch succeeded,
        the first transaction is capturable and the order has no
        has-captures flag; it is the only further request, and it is for the
        first transaction.
      - A void is issued iff the void branch applies, the fetch succeeded, the
        status is truthy, the first transaction is an authorization and the
        order has neither has-captures nor has-voids; it voids the full amount.
      - The result is false exactly when a request threw, and nothing is
        requested after a fetch that threw. */
  function StatusUpdate(capturable: bool, change: StatusChange, config: Config, ids: StateIds,
                        reply: Result<Snapshot>, actionThrows: bool): (o: HookOutcome)
    ensures var fetches := CaptureRoute(capturable, change, config, ids) || VoidRoute(capturable, change, config, ids);
            && (o.calls == [] <==> !fetches)
            && (fetches ==> o.calls[0] == GetOrder(change.externalOrderId))
    ensures |o.calls| <= 2
    ensures reply.Threw? ==> |o.calls| <= 1
    ensures IssuesCapture(o.calls) <==>
      CaptureRoute(capturable, change, config, ids) && reply.Ok?
      && FirstIsCapturable(reply.value) && "has-captures" !in reply.value.flags
    ensures IssuesCapture(o.calls) ==>
      o.calls[1] == CaptureOrderTransaction(change.externalOrderId, reply.value.transactions[0].id)
    ensures IssuesVoid(o.calls) <==>
      VoidRoute(capturable, change, config, ids) && reply.Ok? && Truthy(reply.value.status)
      && FirstIsAuthorization(reply.value)
      && "has-captures" !in reply.value.flags && "has-voids" !in reply.value.flags
    ensures IssuesVoid(o.calls) ==>
      o.calls[1] == Send("POST", VoidPath(reply.value.id, reply.value.transactions[0].id),
                         reply.value.amount, VoidDescription(reply.value))
    ensures |o.calls| == 2 ==> IssuesCapture(o.calls) || IssuesVoid(o.calls)
    ensures !o.ok <==> (|o.calls| > 0 && reply.Threw?) || (|o.calls| == 2 && actionThrows)
  {
    if capturable && change.newStatus == ids.shipping then
      TryCapture(change.externalOrderId, reply, actionThrows)
    else if change.newStatus == ids.payment then
      if !Truthy(ConfigValue(config, ManualCaptureKey)) then HookOutcome([], true)
      else TryCapture(change.externalOrderId, reply, actionThrows)
    else if change.newStatus == ids.canceled then
      if !Truthy(ConfigValue(config, ManualCaptureKey)) then HookOutcome([], true)
      else TryVoid(change.externalOrderId, reply, actionThrows)
    else HookOutcome([], true)
  }

  /** Once the provider reports the capture (has-captures), a later call for
      the same status change requests no second capture: it only fetches the
      order. */
  lemma CaptureHappensOnce(capturable: bool, change: StatusChange, config: Config, ids: StateIds,
                           before: Snapshot, after: Snapshot, actionThrows: bool)
    requires IssuesCapture(StatusUpdate(capturable, change, config, ids, Ok(before), actionThrows).calls)
    requires "has-captures" in after.flags
    ensures StatusUpdate(capturable, change, config, ids, Ok(after), actionThrows).calls
            == [GetOrder(change.externalOrderId)]
  {
  }

  /** The requests as entries of the shop's log. */
  function Requests(calls: seq<PspCall>): (r: seq<Effect>)
    ensures |r| == |calls|
    ensures forall i :: 0 <= i < |calls| ==> r[i] == Request(calls[i])
  {
    seq(|calls|, i requires 0 <= i < |calls| => Request(calls[i]))
  }

  /** hookActionOrderStatusUpdate as a procedure on the shop: each request
      is logged as it is issued; the requests and the result are those of
      StatusUpdate for the shop's configuration. */
  method OnOrderStatusUpdate(shop: Shop, capturable: bool, change: StatusChange, ids: StateIds,
                             reply: Result<Snapshot>, actionThrows: bool) returns (ok: bool)
    modifies shop`log
    ensures shop.log == old(shop.log) + Requests(StatusUpdate(capturable, change, shop.config, ids, reply, actionThrows).calls)
    ensures ok == StatusUpdate(capturable, change, shop.config, ids, reply, actionThrows).ok
  {
    var manual := Truthy(ConfigValue(shop.config, ManualCaptureKey));
    var capture: bool;
    if capturable && change.newStatus == ids.shipping {
      capture := true;
    } else if change.newStatus == ids.payment || change.newStatus == ids.canceled {
      if !manual {
        return true;
      }
      capture := change.newStatus == ids.payment;
    } else {
      return true;
    }
    shop.log := shop.log + [Request(GetOrder(change.externalOrderId))];
    if reply.Threw? {
      return false;
    }
    var snap := reply.value;
    var call: PspCall;
    if capture {
      if !FirstIsCapturable(snap) || "has-captures" in snap.flags {
        return true;
      }
      call := CaptureOrderTransaction(change.externalOrderId, snap.transactions[0].id);
    } else {
      // As written in the source: only a falsy status stops the void here.
      if !Truthy(snap.status) {
        return true;
      }
      if !FirstIsAuthorization(snap) {
        return true;
      }
      if "has-captures" in snap.flags || "has-voids" in snap.flags {
        return true;
      }
      call := Send("POST", VoidPath(snap.id, snap.transactions[0].id), snap.amount, VoidDescription(snap));
    }
    shop.log := shop.log + [Request(call)];
    ok := !actionThrows;
  }

  /** The guard on line 450 lets a cancellation void an authorization whose
      order is still processing: with any truthy status other than completed
      the void is issued, where a status check would have stopped it. */
  lemma VoidGuardAdmitsNonCompleted(change: StatusChange, config: Config, ids: StateIds, snap: Snapshot)
    requires VoidRoute(false, change, config, ids)
    requires snap.status == "processing"
    requires FirstIsAuthorization(snap) && snap.flags == []
    ensures IssuesVoid(StatusUpdate(false, change, config, ids, Ok(snap), false).calls)
  {
  }

  /** The void branch with the guard line 450 evidently intends: stop
      unless the provider's order is completed. In every other respect it is
      TryVoid. */
  function TryVoidIntended(orderId: string, reply: Result<Snapshot>, actionThrows: bool): (o: HookOutcome)
    ensures |o.calls| >= 1 && o.calls[0] == GetOrder(orderId) && |o.calls| <= 2
    ensures |o.calls| == 2 <==>
      reply.Ok? && reply.value.status == "completed" && FirstIsAuthorization(reply.value)
      && "has-captures" !in reply.value.flags && "has-voids" !in reply.value.flags
    ensures |o.calls| == 2 ==>
      o.calls[1] == Send("POST", VoidPath(reply.value.id, reply.value.transactions[0].id),
                         reply.value.amount, VoidDescription(reply.value))
    ensures !o.ok <==> reply.Threw? || (|o.calls| == 2 && actionThrows)
  {
    var fetch := [GetOrder(orderId)];
    match reply
    case Threw => HookOutcome(fetch, false)
    case Ok(snap) =>
      if snap.status != "completed" || !FirstIsAuthorization(snap)
         || "has-captures" in snap.flags || "has-voids" in snap.flags
      then HookOutcome(fetch, true)
      else
        var call := Send("POST", VoidPath(snap.id, snap.transactions[0].id), snap.amount, VoidDescription(snap));
        HookOutcome(fetch + [call], !actionThrows)
  }

  /** The intended guard and the guard as written agree on every reply that
      threw or whose order is completed; they differ exactly on a truthy
      status other than completed, where only the written one can void. */
  lemma IntendedVoidAgreesOnCompleted(orderId: string, reply: Result<Snapshot>, actionThrows: bool)
    ensures reply.Threw? || reply.value.status == "completed" ==>
      TryVoidIntended(orderId, reply, actionThrows) == TryVoid(orderId, reply, actionThrows)
    ensures reply.Ok? && reply.value.status != "completed" ==>
      |TryVoidIntended(orderId, reply, actionThrows).calls| == 1
  {
  }

  // ============================================================= refund

  /** The module names (without the provider prefix) whose refunds need a
      prior capture and carry order lines. */
  const CapturableMethods: seq<string> := ["klarnadirectdebit", "afterpay", "klarnapaylater"]

  /** The payment method of moduleName, found by str_replace(PSP_PREFIX, '', name),
      is one of CapturableMethods. */
  predicate RefundNeedsCapture(moduleName: string, pspPrefix: string) {
    RemoveAll(moduleName, pspPrefix) in CapturableMethods
  }

  /** The refund statuses the source treats as a failed refund. */
  predicate FailedRefundStatus(status: string) {
    status == "error" || status == "cancelled" || status == "expired"
  }

  /** A refund request: the local order, the amount in cents, the customer
      facing payment method name, the cart and the module, and the order
      lines the order builder would compute. */
  datatype RefundRequest = RefundRequest(
    orderId: nat,
    amountCents: int,
    paymentMethod: string,
    cartId: nat,
    moduleName: string,
    orderLines: seq<string>)

  /** How productRefund ends: return false, return true, fall off the end
      (PHP returns null), throw with a message, or let an exception of the
      provider's client through. */
  datatype RefundResult = ReturnedFalse | ReturnedTrue | ReturnedNothing | Raised(message: string) | ClientThrew

  datatype RefundStep = RefundStep(effects: seq<Effect>, states: map<nat, int>, result: RefundResult)

  /** The message of a failed refund: the first transaction's customer_message
      when it has one, a generic one otherwise. */
  function RefundFailureMessage(reply: Snapshot): string {
    match FirstTransaction(reply)
    case Some(t) => if t.customerMessage.Some? then t.customerMessage.value else "Refund order is not completed."
    case None => "Refund order is not completed."
  }

  /** The refund request productRefund sends for a fetched order. */
  function RefundCall(req: RefundRequest, snap: Snapshot, pspPrefix: string): PspCall {
    RefundOrder(snap.id, req.amountCents, "Order refund: " + NatToString(req.orderId),
                if RefundNeedsCapture(req.moduleName, pspPrefix) then Some(req.orderLines) else None)
  }

  /** The order passes the refund's guards: not refunded yet, completed, and
      captured when its method needs that. */
  predicate Refundable(req: RefundRequest, snap: Snapshot, pspPrefix: string) {
    "has-refunds" !in snap.flags && snap.status == "completed"
    && (RefundNeedsCapture(req.moduleName, pspPrefix) ==> "has-captures" in snap.flags)
  }

  /** productRefund. fetched is what getOrder yields, refundReply what
      refundOrder yields, historyAddOk whether OrderHistory::add() succeeds.
      - No ledger row for the cart: false, and nothing is requested.
      - An order flagged has-refunds: true, after the fetch alone.
      - An order not completed, or one whose method needs a capture and has
        none: an exception, after the fetch alone.
      - Otherwise the refund is requested for the fetched order; it carries
        order lines exactly for the capture-requiring methods. Once it
        returns, the order moves to the refunded state and that history row
        is added before the reply is inspected; a failed refund whose history
        row was added therefore still keeps it, and throws the customer's
        message when there is one. */
  function Refund(req: RefundRequest, ledger: seq<LedgerRow>, pspPrefix: string, states: map<nat, int>,
                  ids: StateIds, fetched: Result<Snapshot>, refundReply: Result<Snapshot>,
                  historyAddOk: bool): (r: RefundStep)
    ensures RowByCart(ledger, req.cartId).None? ==> r == RefundStep([], states, ReturnedFalse)
    ensures RowByCart(ledger, req.cartId).Some? ==>
      |r.effects| >= 1 && r.effects[0] == Request(GetOrder(RowByCart(ledger, req.cartId).value.externalOrderId))
    ensures |r.effects| <= 3
    ensures RowByCart(ledger, req.cartId).Some? && fetched.Ok? && "has-refunds" in fetched.value.flags ==>
      |r.effects| == 1 && r.result == ReturnedTrue
    ensures RowByCart(ledger, req.cartId).Some? && fetched.Ok? && "has-refunds" !in fetched.value.flags
            && fetched.value.status != "completed" ==>
      |r.effects| == 1 && r.result == Raised(req.paymentMethod + ": Only completed orders can be refunded.")
    ensures RowByCart(ledger, req.cartId).Some? && fetched.Ok? && "has-refunds" !in fetched.value.flags
            && fetched.value.status == "completed" && RefundNeedsCapture(req.moduleName, pspPrefix)
            && "has-captures" !in fetched.value.flags ==>
      |r.effects| == 1 && r.result == Raised(req.paymentMethod + ": Refunds only possible when captured.")
    ensures |r.effects| >= 2 <==>
      RowByCart(ledger, req.cartId).Some? && fetched.Ok? && Refundable(req, fetched.value, pspPrefix)
    ensures |r.effects| >= 2 ==> r.effects[1] == Request(RefundCall(req, fetched.value, pspPrefix))
    ensures |r.effects| >= 2 ==>
      (r.effects[1].call.orderLines.Some? <==> RefundNeedsCapture(req.moduleName, pspPrefix))
    ensures |r.effects| == 3 <==> |r.effects| >= 2 && refundReply.Ok? && historyAddOk
    ensures |r.effects| == 3 ==> r.effects[2] == HistoryAdded(HistoryEntry(req.orderId, ids.refund))
    ensures r.states == (if |r.effects| >= 2 && refundReply.Ok? then states[req.orderId := ids.refund] else states)
    ensures |r.effects| == 3 && FailedRefundStatus(refundReply.value.status) ==>
      r.result == Raised(req.paymentMethod + ": " + RefundFailureMessage(refundReply.value))
    ensures r.result == ReturnedNothing <==> |r.effects| == 3 && !FailedRefundStatus(refundReply.value.status)
    ensures r.result == ReturnedFalse <==>
      RowByCart(ledger, req.cartId).None? || (|r.effects| == 2 && refundReply.Ok?)
    ensures r.result == ReturnedTrue <==>
      RowByCart(ledger, req.cartId).Some? && fetched.Ok? && "has-refunds" in fetched.value.flags
    ensures r.result == ClientThrew <==>
      RowByCart(ledger, req.cartId).Some? && (fetched.Threw? || (|r.effects| >= 2 && refundReply.Threw?))
  {
    match RowByCart(ledger, req.cartId)
    case None => RefundStep([], states, ReturnedFalse)
    case Some(row) =>
      var fetch := [Request(GetOrder(row.externalOrderId))];
      match fetched
      case Threw => RefundStep(fetch, states, ClientThrew)
      case Ok(snap) =>
        if "has-refunds" in snap.flags then RefundStep(fetch, states, ReturnedTrue)
        else if snap.status != "completed" then
          RefundStep(fetch, states, Raised(req.paymentMethod + ": Only completed orders can be refunded."))
        else if RefundNeedsCapture(req.moduleName, pspPrefix) && "has-captures" !in snap.flags then
          RefundStep(fetch, states, Raised(req.paymentMethod + ": Refunds only possible when captured."))
        else
          var issued := fetch + [Request(RefundCall(req, snap, pspPrefix))];
          match refundReply
          case Threw => RefundStep(issued, states, ClientThrew)
          case Ok(reply) =>
            var states' := states[req.orderId := ids.refund];
            if !historyAddOk then RefundStep(issued, states', ReturnedFalse)
            else
              var effects := issued + [HistoryAdded(HistoryEntry(req.orderId, ids.refund))];
              if FailedRefundStatus(reply.status) then
                RefundStep(effects, states', Raised(req.paymentMethod + ": " + RefundFailureMessage(reply)))
              else RefundStep(effects, states', ReturnedNothing)
  }

  /** A refund that is submitted again once the provider has recorded it
      succeeds without a second refund request or history row. */
  lemma RefundResubmitIsNoOp(req: RefundRequest, ledger: seq<LedgerRow>, pspPrefix: string,
                             states: map<nat, int>, ids: StateIds, refunded: Snapshot,
                             refundReply: Result<Snapshot>, historyAddOk: bool)
    requires RowByCart(ledger, req.cartId).Some?
    requires "has-refunds" in refunded.flags
    ensures var r := Refund(req, ledger, pspPrefix, states, ids, Ok(refunded), refundReply, historyAddOk);
            r.result == ReturnedTrue && r.states == states
            && r.effects == [Request(GetOrder(RowByCart(ledger, req.cartId).value.externalOrderId))]
  {
  }

  /** productRefund as a procedure on the shop: each request and history row
      is logged when it happens and the order states follow Refund. */
  method ProductRefund(shop: Shop, req: RefundRequest, ledger: seq<LedgerRow>, pspPrefix: string, ids: StateIds,
                       fetched: Result<Snapshot>, refundReply: Result<Snapshot>, historyAddOk: bool)
    returns (result: RefundResult)
    modifies shop`log, shop`states
    ensures var r := Refund(req, ledger, pspPrefix, old(shop.states), ids, fetched, refundReply, historyAddOk);
            shop.log == old(shop.log) + r.effects && shop.states == r.states && result == r.result
  {
    var row := RowByCart(ledger, req.cartId);
    if row.None? {
      return ReturnedFalse;
    }
    shop.log := shop.log + [Request(GetOrder(row.value.externalOrderId))];
    if fetched.Threw? {
      return ClientThrew;
    }
    var snap := fetched.value;
    if "has-refunds" in snap.flags {
      return ReturnedTrue;
    }
    if snap.status != "completed" {
      return Raised(req.paymentMethod + ": Only completed orders can be refunded.");
    }
    var needsCapture := RefundNeedsCapture(req.moduleName, pspPrefix);
    var lines: Option<seq<string>> := None;
    if needsCapture {
      if "has-captures" !in snap.flags {
        return Raised(req.paymentMethod + ": Refunds only possible when captured.");
      }
      lines := Some(req.orderLines);
    }
    shop.log := shop.log + [Request(RefundOrder(snap.id, req.amountCents, "Order refund: " + NatToString(req.orderId), lines))];
    if refundReply.Threw? {
      return ClientThrew;
    }
    shop.states := shop.states[req.orderId := ids.refund];
    if !historyAddOk {
      return ReturnedFalse;
    }
    shop.log := shop.log + [HistoryAdded(HistoryEntry(req.orderId, ids.refund))];
    if FailedRefundStatus(refundReply.value.status) {
      return Raised(req.paymentMethod + ": " + RefundFailureMessage(refundReply.value));
    }
    result := ReturnedNothing;
  }
}
