/** The data the module works on: the payment-service provider's order
    snapshot, the local ledger that links carts and orders to it, the calls
    the module issues to the provider, the order-history entries it writes,
    and the shop whose state those writes change. */
module Domain {
  import opened Base

  // ------------------------------------------------ the provider's order

  /** One transaction of an external order. An absent transaction_type is
      None; an absent is_capturable reads as false; customer_message is only
      looked at on a refund's reply. */
  datatype Transaction = Transaction(
    id: string,
    transactionType: Option<string>,
    isCapturable: bool,
    customerMessage: Option<string>)

  /** An order as the provider's getOrder (or refundOrder) returns it.
      An absent status is "". Amounts are integers in minor currency units. */
  datatype Snapshot = Snapshot(
    id: string,
    status: string,
    amount: nat,
    merchantOrderId: string,
    flags: seq<string>,
    transactions: seq<Transaction>)

  /** PHP current($order['transactions']): the first transaction, if any. */
  function FirstTransaction(snap: Snapshot): (t: Option<Transaction>)
    ensures t.Some? <==> |snap.transactions| > 0
    ensures t.Some? ==> t.value == snap.transactions[0]
  {
    if |snap.transactions| == 0 then None else Some(snap.transactions[0])
  }

  /** current(transactions)['is_capturable'] is truthy. */
  predicate FirstIsCapturable(snap: Snapshot) {
    |snap.transactions| > 0 && snap.transactions[0].isCapturable
  }

  /** isset(current(transactions)['transaction_type']) and it is 'authorization'. */
  predicate FirstIsAuthorization(snap: Snapshot) {
    |snap.transactions| > 0 && snap.transactions[0].transactionType == Some("authorization")
  }

  /** The provider's list of supported currencies: payment method id to the
      currency codes it accepts (payment_methods[method]['currencies']). */
  type CurrencyTable = map<string, seq<string>>

  /** The decoded contents of the currency cache file. */
  datatype CacheEntry = CacheEntry(currencies: CurrencyTable, expiredTime: int)

  /** A request issued to the provider's client. Send is the client's generic
      escape hatch, used for voids. The order lines of a refund are those the
      order builder computes; they are opaque here. */
  datatype PspCall =
    | GetOrder(orderId: string)
    | CaptureOrderTransaction(orderId: string, transactionId: string)
    | Send(verb: string, path: string, amount: int, description: string)
    | RefundOrder(orderId: string, amount: int, description: string, orderLines: Option<seq<string>>)
    | GetCurrencyList

  // --------------------------------------------------------- the ledger

  /** One row of the module's own table: a cart, the local order created for
      it (0 while the column is NULL), the provider's order id, the payment
      method module's name, the customer's secure key and the optional bank
      reference. */
  datatype LedgerRow = LedgerRow(
    cartId: nat,
    orderId: nat,
    externalOrderId: string,
    paymentMethod: string,
    key: string,
    reference: Option<string>)

  /** getRow(... WHERE ginger_order_id = id): the first row for that provider order. */
  function RowByExternalId(ledger: seq<LedgerRow>, id: string): (r: Option<LedgerRow>)
    ensures r.None? <==> forall i :: 0 <= i < |ledger| ==> ledger[i].externalOrderId != id
    ensures r.Some? ==> r.value in ledger && r.value.externalOrderId == id
  {
    if |ledger| == 0 then None
    else if ledger[0].externalOrderId == id then Some(ledger[0])
    else RowByExternalId(ledger[1..], id)
  }

  /** getRow(... WHERE id_cart = cartId): the first row for that cart. */
  function RowByCart(ledger: seq<LedgerRow>, cartId: nat): (r: Option<LedgerRow>)
    ensures r.None? <==> forall i :: 0 <= i < |ledger| ==> ledger[i].cartId != cartId
    ensures r.Some? ==> r.value in ledger && r.value.cartId == cartId
  {
    if |ledger| == 0 then None
    else if ledger[0].cartId == cartId then Some(ledger[0])
    else RowByCart(ledger[1..], cartId)
  }

  // ------------------------------------------------- local order states

  /** The host shop's order-state ids the module reads from its configuration
      (PS_OS_PREPARATION, PS_OS_PAYMENT, PS_OS_ERROR, PS_OS_CANCELED,
      PS_OS_SHIPPING, PS_OS_REFUND and the module's own GINGER_AUTHORIZED),
      already converted with (int). */
  datatype StateIds = StateIds(
    preparation: int,
    payment: int,
    error: int,
    canceled: int,
    shipping: int,
    refund: int,
    authorized: int)

  /** An order-history row: the order moved to this state. */
  datatype HistoryEntry = HistoryEntry(orderId: nat, state: int)

  /** What the module does to the outside world, in the order it does it: a
      request to the provider, or an order-history row added. */
  datatype Effect = Request(call: PspCall) | HistoryAdded(entry: HistoryEntry)

  /** The current_state of an order; an order that is not on record reads as 0
      (PHP's null, which compares equal to 0). */
  function CurrentState(states: map<nat, int>, orderId: nat): (s: int)
    ensures orderId in states ==> s == states[orderId]
    ensures orderId !in states ==> s == 0
  {
    if orderId in states then states[orderId] else 0
  }

  // ------------------------------------------------- configuration keys

  /** The configuration key GINGER_CREDITCARD_CAPTURE_MANUAL, the credit-card
      "capture on complete" switch. */
  const ManualCaptureKey := "GINGER_CREDITCARD_CAPTURE_MANUAL"

  /** 'GINGER_' . strtoupper(str_replace('-', '', method_id)): the prefix of a
      payment method's configuration keys. It starts with GINGER_, and the rest
      is the method id without dashes, upper-cased. */
  function KeyPrefix(methodId: string): (k: string)
    ensures |k| >= 7 && k[..7] == "GINGER_"
    ensures k[7..] == Upper(RemoveAll(methodId, "-"))
    ensures '-' !in k[7..]
    ensures forall i :: 7 <= i < |k| ==> !('a' <= k[i] <= 'z')
  {
    "GINGER_" + Upper(RemoveAll(methodId, "-"))
  }

  /** The suffixes of a payment method's own keys: its IP allow-list, its
      country allow-list, its manual-capture switch and its checkout label. */
  const IpSuffix := "_SHOW_FOR_IP"
  const CountrySuffix := "_COUNTRY_ACCESS"
  const CaptureSuffix := "_CAPTURE_MANUAL"
  const LabelSuffix := "_LABEL"

  /** A configuration key of a payment method: its prefix and a suffix. */
  function MethodKey(methodId: string, suffix: string): string {
    KeyPrefix(methodId) + suffix
  }

  // ---------------------------------------------------------- the shop

  /** The state of the shop the module runs in, as far as the model needs it:
      the configuration store, the current state of each local order, the log
      of provider requests and order-history rows in the order they happened,
      and the decoded currency cache file (None when it is missing or does not
      decode). */
  class Shop {
    var config: Config
    var states: map<nat, int>
    var log: seq<Effect>
    var currencyCache: Option<CacheEntry>

    constructor (config: Config, states: map<nat, int>)
      ensures this.config == config && this.states == states
      ensures log == [] && currencyCache == None
    {
      this.config := config;
      this.states := states;
      log := [];
      currencyCache := None;
    }
  }
}
