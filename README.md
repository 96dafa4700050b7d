# NoPayn / Ginger payment module for PrestaShop — a Dafny model of its core

The module connects a PrestaShop shop to the Ginger payment-service provider
(the PSP). This project models the parts of it that decide what happens to
orders and settings, and proves properties of them:

- **the webhook** (`webhook.php`). The provider posts `{order_id, event}`.
  Only `status_changed` is handled. The ledger row of the provider order is
  looked up and the order is fetched from the provider. Its status is mapped
  to a local order state, and an order-history row is added only when that
  state differs from the order's current one.
- **the order-status hook** (`hookActionOrderStatusUpdate`). A shipped
  order of a module that supports capture, or a paid order of any module
  while `GINGER_CREDITCARD_CAPTURE_MANUAL` is truthy, has its first
  transaction captured, provided that transaction is capturable and the
  order has no `has-captures` flag. While `GINGER_CREDITCARD_CAPTURE_MANUAL`
  is truthy, a cancelled order whose provider status is truthy, whose first
  transaction is an authorization and which has neither a `has-captures`
  nor a `has-voids` flag has that authorization voided for the full
  amount.
- **refunds** (`productRefund`). The guard chain runs in this order: ledger
  row, `has-refunds`, completed status, then `has-captures` for the methods
  that need a capture. Then comes the refund request, with order lines only
  for those methods, the refunded-state history row, and the reply check.
- **checkout gating**. `validateIP` and `validateCountry` check the client
  against allow-lists stored as comma-separated values. `checkCurrency` and
  `validateCurrency` check the order's currency against the provider's
  currency list. That list is cached in a file for 360 seconds, and EUR alone
  stands in for it when the lookup throws.
- **admin settings** (`GingerConfigurableTrait`). `postProcess` writes a
  module's configuration keys, which are named
  `GINGER_<METHOD ID WITHOUT DASHES, UPPER-CASED>_…`. `postValidation` checks
  that an API key is set. `getContent` shows errors and then saves anyway.
  `getPaymentMethodsFields` chooses which fields the page shows.

How the model is built:

- Each operation has a **specification function**. For the webhook, the
  status hook and refunds it returns the requests issued to the provider,
  the history rows added and the result. Its `ensures` clauses state the
  guard table of the source: which request is issued under exactly which
  conditions, for which transaction, and with which result.
- The checks that change nothing are functions only: `ValidateIP`,
  `ValidateCountry`, `ValidateCurrency`, the webhook's status mapping
  (`MappedState`), `PostValidation` and `PaymentMethodFields`.
- The operations that change state also have an **imperative procedure** on
  a `Shop` object. These are `HandleNotification`, `OnOrderStatusUpdate`,
  `ProductRefund`, `GetAllowedCurrencyList` with `CacheCurrencyList`,
  `CheckCurrency`, `PostProcess` and `GetContent`. `Shop` holds the
  configuration store, the current state of each order, a log of effects
  and the currency cache file. Each procedure changes only the fields it
  names in `modifies`, and its `ensures` tie the new state to the
  specification function.
- The effect log (`seq<Effect>`) keeps provider requests and history writes
  in the order they happen.
- Properties that relate several calls are lemmas: redelivery, capture
  idempotence, cache lifetime, allow-list round trips and key naming.

Things the model takes as inputs:

- Replies of the provider's client that may throw are inputs of type
  `Result<T>` (`Ok(reply)` or `Threw`). The webhook's fetch is an
  `Option<Snapshot>`, where `None` stands for an empty reply or a failed
  call.
- Whether a capture or void call throws is a boolean input (`actionThrows`),
  and so is whether `OrderHistory::add()` succeeds (`historyAddOk`).
- The clock (`time()`) is a parameter `now`.
- `PSP_PREFIX` and the set of `GINGER_PSP_LABELS` keys come from
  `GingerPSPConfig`, which is not part of this model, so they are parameters.
- Form submissions (`Tools::getValue`) are a map from key to value.
- The host shop's order-state ids (`PS_OS_*`, `GINGER_AUTHORIZED`) are one
  resolved record, `StateIds`.

PHP semantics the model writes out:

- Truthiness: `""` and `"0"` are false.
- `trim`, with its default character set.
- `explode` and `implode`, with proofs that each undoes the other.
- ASCII `strtoupper`.
- `str_replace` with an empty replacement.
- `ctype_digit` and integer-to-string conversion.
- The loose comparison of `filter_var`'s `false` with `""` and `"0"`.
- A missing configuration key or form field reads as `""`.
- `current()` of a freshly decoded transaction list is its first element,
  and nothing when the list is empty (`Domain.FirstTransaction`).
- The `current_state` of an order not on record is PHP's `null`, which
  compares equal to 0 (`Domain.CurrentState`).
- Amounts are integers in minor units (cents).

## Behaviour of the code worth noting

The model follows the code as written in each case below.

- **Line 450 of GingerPlugin.php** reads `!$gingerOrder['status'] == 'completed'`.
  This parses as `(!status) == 'completed'`, so only an empty or falsy status
  stops the void. A cancellation after an authorization therefore voids even
  while the provider's order is `processing`. The guard evidently means
  `$status != 'completed'`, which would have stopped the void.
  `OrderHooks.TryVoid` models the code as written, and the hook
  (`StatusUpdate`) uses it. `OrderHooks.VoidGuardAdmitsNonCompleted` proves
  the consequence. `OrderHooks.TryVoidIntended` is the branch with the
  intended guard, which voids only a completed order.
  `OrderHooks.IntendedVoidAgreesOnCompleted` proves that the two branches
  agree on every reply that threw or whose order is completed, and that the
  intended one requests nothing but the fetch otherwise.
- **Capture eligibility** is read from the *first* transaction only
  (`current($transactions)['is_capturable']`), not from any transaction.
- **Refund history.** The refunded-state history row is added, and the order
  state changed, *before* the refund reply's status is checked. A refund the
  provider reports as failed therefore still leaves the history row, and then
  throws.
- **A missing ledger row on refund** makes `productRefund` return `false`. It
  does not raise an error.
- **Capture on payment-accepted** is gated by
  `GINGER_CREDITCARD_CAPTURE_MANUAL` alone, whichever module's hook runs.
- **The webhook** issues no capture or void itself. It only adds the history
  row. Capture or void follows from PrestaShop running the order-status hook
  for that row, which is outside this model.

## Model

| member | source | states |
|---|---|---|
| Base.Trim | nopayn/ginger/Lib/components/GingerConfigurableTrait.php:45 | trim() yields the slice of its input between leading and trailing whitespace, and it neither starts nor ends with a trim character |
| Base.TrimIdempotent | nopayn/ginger/Lib/components/GingerConfigurableTrait.php:45 | trimming an already stored, trimmed value changes nothing |
| Base.Explode | nopayn/ginger/Lib/components/GingerPlugin.php:390 | explode always yields at least one piece, and no piece contains the separator |
| Base.JoinExplode | nopayn/ginger/Lib/components/GingerPlugin.php:390 | joining the pieces of explode with the separator gives back the original string |
| Base.ExplodeJoin | nopayn/ginger/Lib/components/GingerPlugin.php:486 | splitting a comma-join of comma-free pieces gives back exactly those pieces |
| Base.RemoveAll | nopayn/ginger/Lib/components/GingerConfigurableTrait.php:40 | str_replace of a one-character needle by '' leaves no occurrence of it and keeps every other character |
| Base.NatToString | nopayn/ginger/Lib/components/GingerPlugin.php:523 | the decimal form of an order id is all digits, with no leading zero |
| Base.NatToStringRoundTrip | nopayn/ginger/Lib/components/GingerPlugin.php:523 | reading back the decimal form of an order id gives the id |
| Domain.KeyPrefix | nopayn/ginger/Lib/components/GingerConfigurableTrait.php:40 | a method's key prefix is GINGER_ followed by the method id without dashes, upper-cased; it contains no dash and no lower-case letter after GINGER_ |
| Domain.RowByExternalId | nopayn/ginger/webhook.php:27-39 | the ledger lookup by provider order id finds nothing iff no row has that id, and otherwise a row of the ledger with that id |
| Domain.RowByCart | nopayn/ginger/Lib/components/GingerPlugin.php:505-506 | the ledger lookup by cart finds nothing iff no row has that cart, and otherwise a row of the ledger for that cart |
| Webhook.MappedState | nopayn/ginger/webhook.php:63-85 | the status switch: new/processing become preparation, completed becomes authorized when the first transaction is an authorization and payment-accepted otherwise, error becomes error, cancelled/expired become canceled, and exactly the six known statuses map to a state |
| Webhook.Deliver | nopayn/ginger/webhook.php:22-105 | other events and unknown orders have no effect; the order is fetched iff the event is status_changed and a ledger row exists; one history row is added, and the state updated, iff the row has a local order whose current state differs from the mapped one; nothing else changes |
| Webhook.ReplayChangesNothing | nopayn/ginger/webhook.php:86-105 | delivering the same notification with the same snapshot a second time adds no history row and changes no state |
| Webhook.AuthorizedThenPaid | nopayn/ginger/webhook.php:69-76 | an authorized completed snapshot followed by a settled one writes authorized, then payment-accepted, and the order ends payment-accepted |
| Webhook.HandleNotification | nopayn/ginger/webhook.php:18-107 | the endpoint appends the delivery's effects to the shop's log and leaves the order states as the delivery says |
| OrderHooks.StatusUpdate | nopayn/ginger/Lib/components/GingerPlugin.php:401-467 | the order is fetched iff a capture or void branch applies; a capture is issued iff the branch applies, the fetch succeeded, the first transaction is capturable and has-captures is absent, and it is for the first transaction; a void is issued iff its branch applies, the status is truthy, the first transaction is an authorization and neither has-captures nor has-voids is present, and it is for the full amount; the result is false iff a request threw |
| OrderHooks.CaptureHappensOnce | nopayn/ginger/Lib/components/GingerPlugin.php:413-414 | once the provider reports has-captures, the same status change requests no second capture: it only fetches |
| OrderHooks.TryVoid | nopayn/ginger/Lib/components/GingerPlugin.php:447-464 | the void branch as written always fetches first; it voids iff the fetch succeeded, the status is truthy, the first transaction is an authorization and neither has-captures nor has-voids is present; the void is for that transaction and the full amount; the result is false iff the fetch or the void threw |
| OrderHooks.TryVoidIntended | nopayn/ginger/Lib/components/GingerPlugin.php:450 | the void branch with the intended guard voids iff the fetch succeeded, the status is completed, the first transaction is an authorization and neither flag is present; apart from the status guard it is TryVoid: the fetch first, the void for the first transaction and the full amount, and false iff a request threw |
| OrderHooks.IntendedVoidAgreesOnCompleted | nopayn/ginger/Lib/components/GingerPlugin.php:450 | the intended and the written void branches agree on a reply that threw or a completed order; on any other status the intended branch only fetches |
| OrderHooks.VoidGuardAdmitsNonCompleted | nopayn/ginger/Lib/components/GingerPlugin.php:450 | as written, the void guard lets a processing (not completed) order's authorization be voided |
| OrderHooks.OnOrderStatusUpdate | nopayn/ginger/Lib/components/GingerPlugin.php:401-467 | the hook logs exactly the requests of StatusUpdate, in order, for the shop's configuration, and returns its result |
| OrderHooks.Refund | nopayn/ginger/Lib/components/GingerPlugin.php:503-553 | no ledger row: false and no request; has-refunds: true after the fetch alone; not completed, or capture needed and missing: the matching exception after the fetch alone; otherwise the refund is requested, with order lines iff the method needs a capture; once it returns the order moves to the refunded state; false is returned exactly when there is no ledger row or the history row cannot be added, and true exactly for an order already flagged has-refunds; the history row is added before a failed reply raises the customer's message |
| OrderHooks.RefundResubmitIsNoOp | nopayn/ginger/Lib/components/GingerPlugin.php:510 | a refund submitted again after the provider recorded it returns true, with only the fetch and no state change |
| OrderHooks.ProductRefund | nopayn/ginger/Lib/components/GingerPlugin.php:503-553 | the procedure logs exactly Refund's effects in order, sets the order states as Refund says, and returns its result |
| Checkout.ValidateIP | nopayn/ginger/Lib/components/GingerPlugin.php:385-398 | an empty allow-list lets every client through; otherwise a valid address passes iff it is one of the trimmed entries, and an invalid one passes iff an entry is "" or "0" |
| Checkout.CsvEntriesOfJoin | nopayn/ginger/Lib/components/GingerPlugin.php:390 | the entries of a list written as comma-free pieces joined by commas are the trimmed pieces |
| Checkout.ValidateIPAgainstList | nopayn/ginger/Lib/components/GingerPlugin.php:388-395 | with the list stored as addresses joined by commas, a client address passes iff it equals one of those addresses once trimmed |
| Checkout.ValidateCountry | nopayn/ginger/Lib/components/GingerPlugin.php:476-498 | a falsy country list lets everyone through; otherwise the upper-cased country must be one of the trimmed entries and one of the method's allowed locales |
| Checkout.ValidateCountryAgainstList | nopayn/ginger/Lib/components/GingerPlugin.php:480-495 | with the list stored as codes joined by commas, a country passes iff its upper-cased code equals one trimmed code and the locale is allowed |
| Checkout.ValidateCurrency | nopayn/ginger/Lib/components/GingerPlugin.php:658-673 | when the lookup threw only EUR is accepted; otherwise a currency is accepted iff the method has a currency list containing it |
| Checkout.CurrencyLookup | nopayn/ginger/Lib/components/GingerPlugin.php:675-699 | the cached list is served iff it has not expired; otherwise the provider is asked, and a successful answer is cached until now + 360 while a failure leaves the file |
| Checkout.CachedListLastsTtl | nopayn/ginger/Lib/components/GingerPlugin.php:680-694 | a list fetched at t is served without asking the provider at every time before t + 360, and asked for again from then on |
| Checkout.GetAllowedCurrencyList | nopayn/ginger/Lib/components/GingerPlugin.php:675-686 | the procedure returns CurrencyLookup's result, rewrites the cache file as it says, and logs the provider request iff one was made |
| Checkout.CacheCurrencyList | nopayn/ginger/Lib/components/GingerPlugin.php:689-699 | the provider is asked once; a reply is returned and cached with expiry now + 360; a throwing request leaves the cache file |
| Checkout.ModuleAcceptsCurrency | nopayn/ginger/Lib/components/GingerPlugin.php:150-159 | the loop finds the cart's currency iff it is among the module's currencies |
| Checkout.CheckCurrency | nopayn/ginger/Lib/components/GingerPlugin.php:145-162 | the currency is accepted iff it is one of the module's and validateCurrency accepts it; the provider's list is looked up, and the cache touched, only in the first case |
| Settings.SettingsWrites | nopayn/ginger/Lib/components/GingerConfigurableTrait.php:37-77 | the IP and country lists are written, trimmed, iff the module has that capability; the capture switch iff the method is credit-card; the provider module writes the trimmed API key, the raw CA-bundle value, the expiration period iff it is all digits and strictly between 0 and 360, and each test key, trimmed, iff its method is installed; any other module writes only its label; the API key and a label are never both written; no other key is written |
| Settings.MethodWrites | nopayn/ginger/Lib/components/GingerConfigurableTrait.php:43-56 | the capability-dependent writes: IP list iff IP validation, country list iff country validation, capture switch iff credit-card, each trimmed, and nothing else |
| Settings.ProviderWrites | nopayn/ginger/Lib/components/GingerConfigurableTrait.php:58-73 | the provider-only writes: API key trimmed, CA bundle raw, expiration period only when valid and then unchanged, test keys iff their methods are installed, all fixed keys |
| Settings.InvalidExpirationKeepsStored | nopayn/ginger/Lib/components/GingerConfigurableTrait.php:63-66 | an expiration period that is not all digits or not strictly between 0 and 360 leaves the stored period as it was |
| Settings.PrefixOfDashed | nopayn/ginger/Lib/components/GingerConfigurableTrait.php:40 | the prefix of a two-piece dashed method id is GINGER_ and the pieces run together, upper-cased |
| Settings.PrefixOfDashed3 | nopayn/ginger/Lib/components/GingerConfigurableTrait.php:191-193 | the same for a three-piece dashed method id |
| Settings.KlarnaPayLaterPrefix | nopayn/ginger/Lib/components/GingerPlugin.php:387 | the prefix of klarna-pay-later is GINGER_KLARNAPAYLATER |
| Settings.CreditCardCaptureKey | nopayn/ginger/Lib/components/GingerConfigurableTrait.php:53-56 | the key credit-card writes for its switch is GINGER_CREDITCARD_CAPTURE_MANUAL, the key the order-status hook reads |
| Settings.CaptureCheckboxKey | nopayn/ginger/Lib/components/GingerConfigurableTrait.php:216-231 | the capture checkbox posts under GINGER_CREDITCARD_CAPTURE_MANUAL |
| Settings.PostProcess | nopayn/ginger/Lib/components/GingerConfigurableTrait.php:37-79 | on a submitted form the store becomes its old contents overwritten by exactly SettingsWrites, and is unchanged otherwise; the confirmation is shown either way |
| Settings.WriteMethodKeys | nopayn/ginger/Lib/components/GingerConfigurableTrait.php:43-56 | the capability-dependent updateValue calls leave the store as its old contents plus MethodWrites |
| Settings.WriteProviderKeys | nopayn/ginger/Lib/components/GingerConfigurableTrait.php:58-73 | the provider-only updateValue calls leave the store as its old contents plus ProviderWrites |
| Settings.Write | nopayn/ginger/Lib/components/GingerConfigurableTrait.php:45 | one updateValue sets one key and keeps every other |
| Settings.PostValidation | nopayn/ginger/Lib/components/GingerConfigurableTrait.php:86-95 | the "API key should be set." error is reported iff no truthy API key is stored and the module is not the provider module, and it is the only error |
| Settings.GetContent | nopayn/ginger/Lib/components/GingerConfigurableTrait.php:12-35 | on a submitted form the errors are shown, the settings are saved anyway, and the confirmation follows; without a submission nothing is saved or shown |
| Settings.Compact | nopayn/ginger/Lib/components/GingerConfigurableTrait.php:242 | array_filter keeps exactly the present entries, and a present last entry stays last |
| Settings.CompactConcat | nopayn/ginger/Lib/components/GingerConfigurableTrait.php:242 | array_filter keeps order: filtering a concatenation is the concatenation of the filtered parts |
| Settings.FieldSlots | nopayn/ginger/Lib/components/GingerConfigurableTrait.php:197-240 | the unfiltered field list has four slots, the last of which is the label field |
| Settings.PaymentMethodFields | nopayn/ginger/Lib/components/GingerConfigurableTrait.php:189-243 | the field list always ends with the label field and holds exactly the present slots |
| Settings.PaymentMethodFieldsSelection | nopayn/ginger/Lib/components/GingerConfigurableTrait.php:197-242 | the page shows the IP field iff IP validation, the country field iff country validation, the capture checkbox iff credit-card, and nothing other than these and the label |

## Left out

- Webhook.Deliver: a provider status outside the six mapped ones writes nothing here. In the source `$order_status` is then undefined, and a history row with a null state would be attempted whenever the order's current state is non-zero. The model does not capture that attempt.
- Webhook.HandleNotification: the same unmapped-status case as Webhook.Deliver.
- Webhook.Deliver: a failing `OrderHistory::add()` in the webhook is not modelled; the state update and history row are taken to succeed together.
- The HTTP bootstrap of `webhook.php` is left out: reading and decoding the body, `echo` and `die` output. The model takes the decoded request as a record.
- The provider's HTTP client (`GingerClientBuilder`) is not part of this model. Its replies and exceptions are inputs. Neither are `GingerOrderBuilder` (the refund order lines are an opaque input) and `GingerGateway`.
- The hook takes the provider order id that `GingerGateway::getByOrderId` resolves, as an input.
- Float handling of amounts (`amount / 100`, `getAmountInCents((float) …)`) is left out; refund amounts are integer cents.
- Smarty templates, `renderForm`, `HelperForm`, `getLibraryFields`, field values and labels, and translations are left out. The translated messages are their English source text.
- `createTables`, `createOrderState`, `install` and `uninstall` are left out, as are the SQL text and the JSON encoding of the currency cache file. The cache file is a record, missing or undecodable as `None`.
- `$_SERVER['REMOTE_ADDR']` with `filter_var`, and the `Address`/`Country` lookups of the invoice country, are inputs supplied already resolved.
- `execPayment`, `hookPaymentOptions` (the order in which it runs the checks), `hookPaymentReturn`, `hookHeader` and `hookOrderSlip` are not modelled.
- The ledger lookup ignores MySQL string collation; ids are compared exactly. A ledger row whose provider order id is NULL is not represented.
- PHP's loose comparison of numeric strings in `in_array` is not modelled: list entries and currencies compare as exact strings.
- A missing `flags` or `transactions` field is taken as an empty list. In PHP 8 both would raise a TypeError: `in_array` on a missing `flags` field, and `current()` on a missing `transactions` field (webhook.php:70; GingerPlugin.php:413, 433, 451). That error is not modelled. So a `completed` webhook reply without transactions, which ends the PHP script, here writes the payment-accepted state.
- Webhook.Deliver and Webhook.HandleNotification: a ledger row whose `id_order` names no order on record is treated as that order. The history row and the state change use the ledger's id. In PHP, `(int) $order->id` of an unloaded order is 0, and `changeIdOrderState` runs on an unloaded `Order`.
- The two `time()` calls of the currency cache use one clock value per lookup; the clock does not advance between them.
- `postValidation` compares the module's `name` with the prefix, while `postProcess` compares its `method_id`; both are kept, as separate fields of `Module`.
- `Tools::isSubmit` is one boolean per request; the repeated checks inside `postProcess` and `postValidation` read the same value.
