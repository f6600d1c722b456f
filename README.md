# Redsys payment module for Magento 2: request builder and pending-order sweep

This project models, in Dafny, the two pieces of the Catgento Redsys module
that carry logic.

- **The request builder** (`Model/RedsysFactory.php`, module `RedsysFactory`).
  - It loads the checkout session's last order once and caches it in the
    `order` field.
  - From that one snapshot it sets the seventeen merchant parameters of a
    `RedsysApi` request:
    - the amount in minor units;
    - the increment id;
    - the configured merchant code, name, terminal and transaction type;
    - the currency, language and payment methods of the store;
    - three callback URLs and the SHA-1 digest of the result URL as
      merchant data;
    - the product description `nameXqty/…` and the titular;
    - the module tag;
    - the EMV 3-D Secure block, with street lines, city, postcode, the
      numeric country code of the billing address and the authentication
      code.
  - `number_format($total, 2, '', '')` and the `(float)` cast are modelled
    on fixed-point totals in module `PhpNumbers`.
- **The cron job** (`Cron/CancelOrderPending.php`, module `CancelOrderPending`).
  - It does nothing when its configuration flag is off.
  - Otherwise it searches for orders that are `pending` and whose
    `updated_at` is no later than a cutoff meant to be ten minutes ago (see
    Findings: as written, the cutoff is twelve hours off for half of every
    day). The two filters sit in separate filter groups, so they are
    conjoined.
  - It cancels those paid with the `redsys` method. Each one gets one history
    comment, with the customer not notified, and is saved.

## Model

The state-changing operations are methods on classes whose fields the source
updates:

- `Factory.order` is the cached order.
- `RedsysApi.vars` holds the request parameters.
- `OrderRepository.orders` holds the stored orders.

Each method is proved against a function:

- `Emv3dsData`, `MerchantParameters` and `ProductDescription` for the builder;
- `Sweep` for the cron job.

The lemmas state what those functions guarantee.

Foreign code appears as parameters:

- `Host` holds URL generation, `sha1`, the currency and language helpers, the
  country table, the pay-methods constant and the configuration values.
- The logged-in state and the enable flag are arguments.
- The current time is an argument, in seconds, UTC.

| member | source | states |
|---|---|---|
| PhpNumbers.DigitChar | Model/RedsysFactory.php:110 | the character printed for a digit is a digit and reads back as that digit |
| PhpNumbers.NatToString | Model/RedsysFactory.php:110 | a non-negative integer prints as a non-empty digit string with no leading zero |
| PhpNumbers.DigitsValueOfNatToString | Model/RedsysFactory.php:110-111 | reading back the printed digits of n gives n |
| PhpNumbers.DigitsValueAppendTwo | Model/RedsysFactory.php:110-111 | appending the two decimal digits multiplies the integer part by a hundred and adds them |
| PhpNumbers.RoundToCents | Model/RedsysFactory.php:110 | the rounding to two decimals is to the nearest cent, halves away from zero, with the sign kept |
| PhpNumbers.CentsDigits | Model/RedsysFactory.php:110-111 | the unsigned text number_format prints for m cents is all digits and denotes m |
| PhpNumbers.FormattedAmountIsMinorUnits | Model/RedsysFactory.php:110-111 | the printed amount is always castable, and casting it back gives the total in cents |
| RedsysFactory.RedsysAmount | Model/RedsysFactory.php:108-112 | getRedsysAmount is the grand total rounded to cents and counted in cents |
| RedsysFactory.RedsysAmountExamples | Model/RedsysFactory.php:108-112 | 10.5 gives 1050, 100.00 gives 10000, 0.05 gives 5, 19.90 gives 1990, 0.005 gives 1 |
| RedsysFactory.RedsysAmountExact | Model/RedsysFactory.php:108-112 | a total that is a whole number of cents is sent without loss |
| RedsysFactory.ProductDescription | Model/RedsysFactory.php:126-136 | the description is empty exactly when there are no visible items, and is at least three characters per item |
| RedsysFactory.ProductDescriptionAppend | Model/RedsysFactory.php:130-134 | the description of concatenated item lists is the concatenation of their descriptions |
| RedsysFactory.ProductDescriptionSeparators | Model/RedsysFactory.php:130-134 | each item contributes exactly one "X" and one "/" beyond those inside item names |
| RedsysFactory.ProductDescriptionExample | Model/RedsysFactory.php:130-134 | a shirt twice and a hat once give "ShirtX2/HatX1/" |
| RedsysFactory.TitularExtendsCardholderName | Model/RedsysFactory.php:144 | the titular is the EMV3DS cardholder name, then "/ Email: ", then the email; it starts with the name and ends with the email |
| RedsysFactory.Emv3dsDataKeys | Model/RedsysFactory.php:187-223 | the EMV3DS block has the eleven fixed fields, plus a second street line for each address that has one, and nothing else |
| RedsysFactory.Emv3dsStreetLines | Model/RedsysFactory.php:198-212 | line 1 of each address is always the first street line; line 2 is present if and only if a second street line exists, and is that line |
| RedsysFactory.Emv3dsCountriesFromBilling | Model/RedsysFactory.php:205-215 | the shipping and billing country fields both carry the numeric code of the billing country |
| RedsysFactory.Emv3dsIgnoresShippingCountry | Model/RedsysFactory.php:205 | changing the shipping address's country leaves the EMV3DS block unchanged |
| RedsysFactory.Emv3dsCardholder | Model/RedsysFactory.php:194-220 | the authentication code is "02" if and only if the customer is logged in, and "01" if and only if not; the cardholder is first + " " + last; Email is the customer email |
| RedsysFactory.AmountParameter | Model/RedsysFactory.php:166 | DS_MERCHANT_AMOUNT is the grand total in cents |
| RedsysFactory.OrderParameter | Model/RedsysFactory.php:167 | DS_MERCHANT_ORDER is the order's increment id |
| RedsysFactory.CallbackParameters | Model/RedsysFactory.php:159-178 | the result, OK and KO URLs are built for the order's increment id; the merchant data is the SHA-1 digest of the URL sent as DS_MERCHANT_MERCHANTURL |
| RedsysFactory.ConfigurationParameters | Model/RedsysFactory.php:153-179 | merchant code, merchant name, terminal and transaction type are the configured values |
| RedsysFactory.StoreParameters | Model/RedsysFactory.php:169-180 | currency, consumer language and payment methods come from the helpers and the configured constant |
| RedsysFactory.DescriptiveParameters | Model/RedsysFactory.php:176-181 | the product description, the titular and the module tag "catgento_redsys" are sent under their parameters |
| RedsysFactory.Emv3dsParameter | Model/RedsysFactory.php:182 | DS_MERCHANT_EMV3DS carries the EMV3DS block built from the same order |
| RedsysFactory.MerchantParametersKeys | Model/RedsysFactory.php:165-182 | the request holds exactly the seventeen parameters |
| RedsysFactory.ParameterNamesDistinct | Model/RedsysFactory.php:166-182 | the seventeen parameter names are distinct, so no setParameter call overwrites another |
| RedsysFactory.EmvKeysDistinct | Model/RedsysFactory.php:194-217 | the thirteen EMV3DS keys are distinct |
| RedsysFactory.RedsysApi.constructor | Model/RedsysFactory.php:165 | a new request object holds no parameters |
| RedsysFactory.RedsysApi.SetParameter | Model/RedsysFactory.php:166 | setParameter stores the value under the name and changes no other parameter |
| RedsysFactory.Factory.constructor | Model/RedsysFactory.php:51 | a new builder has no order cached and has not read the store |
| RedsysFactory.Factory.GetOrder | Model/RedsysFactory.php:96-103 | the first call loads the session's order from the store and caches it; later calls return the cached order without reading the store |
| RedsysFactory.Factory.GetRedsysAmount | Model/RedsysFactory.php:108-112 | returns the snapshot's grand total in cents |
| RedsysFactory.Factory.GetRedsysOrderNumber | Model/RedsysFactory.php:117-121 | returns the snapshot's increment id |
| RedsysFactory.Factory.GetRedsysProducts | Model/RedsysFactory.php:126-136 | the loop builds the product description of the snapshot's visible items, in order |
| RedsysFactory.Factory.GetRedsysCustomer | Model/RedsysFactory.php:141-145 | returns the titular of the snapshot |
| RedsysFactory.Factory.GenerateMerchantEMV3DSData | Model/RedsysFactory.php:187-223 | filling the array key by key yields the EMV3DS block of the snapshot |
| RedsysFactory.Factory.CreateRedsysObject | Model/RedsysFactory.php:150-185 | returns a new request whose parameters are exactly the merchant parameters of the snapshot taken before the call; the cached order stays that snapshot |
| RedsysFactory.SnapshotSurvivesStoreUpdate | Model/RedsysFactory.php:96-103 | once loaded, a change to the stored order does not reach later reads, and the store is read at most once |
| CancelOrderPending.StaleCriteriaIsConjunction | Cron/CancelOrderPending.php:88-110 | an order matches the search if and only if updated_at is at most the cutoff AND the status is "pending" |
| CancelOrderPending.SingleGroupIsDisjunction | Cron/CancelOrderPending.php:88-109 | the same two filters in one group would match if and only if either holds, which is why the job clones the group |
| CancelOrderPending.CutoffAsWrittenByTimeOfDay | Cron/CancelOrderPending.php:84-86 | the 12-hour cutoff is twelve hours in the future before 01:10, right from 01:10 to 13:10, and twelve hours late from 13:10 |
| CancelOrderPending.CutoffAsWrittenCancelsFreshOrder | Cron/CancelOrderPending.php:84-86 | at 00:05 the cutoff as written selects an order updated that same second; the corrected cutoff does not |
| CancelOrderPending.CutoffAsWrittenMissesIdleOrder | Cron/CancelOrderPending.php:84-86 | at 13:53:20 the cutoff as written misses an order idle for eleven hours; the corrected cutoff selects it |
| CancelOrderPending.EligibleMeansIdleRedsysPending | Cron/CancelOrderPending.php:84-121 | an order is cancelled if and only if it is pending, paid with "redsys" and last updated at least ten minutes before the run |
| CancelOrderPending.SweepEffect | Cron/CancelOrderPending.php:113-127 | a run sets an eligible order's status to canceled and appends exactly one comment, the idle text with the customer not notified, and changes nothing else; other orders stay unchanged; no order is added or removed |
| CancelOrderPending.SweepIdempotent | Cron/CancelOrderPending.php:98-127 | a second run with the same cutoff changes nothing |
| CancelOrderPending.CancelledOrderStays | Cron/CancelOrderPending.php:98-124 | a canceled order is never selected again |
| CancelOrderPending.SweepRunsCancelOnce | Cron/CancelOrderPending.php:79-131 | across any number of runs, each order not already canceled is either untouched or cancelled once with a single idle comment |
| CancelOrderPending.SweepScenario | Cron/CancelOrderPending.php:84-127 | at 12:00, a Redsys order idle for 11 minutes is cancelled; one idle for 5 minutes is not; one with another payment method is not |
| CancelOrderPending.ProcessedStep | Cron/CancelOrderPending.php:113-128 | one loop iteration cancels that order if it is paid with Redsys and leaves every other order as it was |
| CancelOrderPending.ProcessedSearchIsSweep | Cron/CancelOrderPending.php:110-129 | processing every search result is exactly one run of the sweep |
| CancelOrderPending.OrderRepository.GetList | Cron/CancelOrderPending.php:110 | getList returns exactly the stored orders the criteria match, changes no order and counts one search |
| CancelOrderPending.OrderRepository.Save | Cron/CancelOrderPending.php:127 | save writes the order back under its id and changes no other order |
| CancelOrderPending.CancelPendingJob.constructor | Cron/CancelOrderPending.php:59-74 | the job works on the given repository |
| CancelOrderPending.CancelPendingJob.Execute | Cron/CancelOrderPending.php:79-131 | disabled: no search, and nothing changes. Enabled: one search, and afterwards the orders are exactly one sweep with the intended cutoff, ten minutes ago (see Findings for the cutoff as written). The orders whose payment method was read are exactly the search results |

Where the module's documented behaviour and its code differ, the model
follows the code:

- The sweep has no per-order error isolation and no success/failure tally.
  Save failures themselves are not modelled (see Left out).
- An unknown country is passed to the country helper like any other; no field
  is omitted.
- The builder raises no error of its own for missing order data or missing
  configuration:
  - it reads the first street line unguarded;
  - it passes configuration values through as they are.

## Left out

- Block/Info.php is not part of this model. It only wraps a label in the translation function.
- Logging calls are not modelled; they only write to the log.
- The `RedsysApi` encoding and signing of the parameters (Base64, 3DES, HMAC-SHA256) are not part of this model; `RedsysApi` is modelled as its parameter map.
- `isLoggedIn` and the checkout session are inputs: the logged-in flag, and `lastRealOrderId` of `Factory`.
- RedsysFactory.Emv3dsData: requires a first street line on both addresses. PHP would read a missing line as null with a notice, and that path is not modelled.
- RedsysFactory.Emv3dsData and the `Order` fields `billing` and `shipping`: every order here has both addresses. An order without a shipping address (a virtual order) makes `getShippingAddress()` return null; the `->getStreet()` call on it (Model/RedsysFactory.php:198) then stops `createRedsysObject` with a fatal error. That path is not modelled.
- RedsysFactory.Factory.GetOrder: requires, through `CanLoad()`, that the session's last order id is in the store. In the builder, `loadByIncrementId` (Model/RedsysFactory.php:100) returns an empty order object for an unknown id, which is then cached and read; that path is not modelled.
- RedsysFactory.RedsysAmount: totals are fixed-point integers in ten-thousandths, not PHP floats. Float representation error and totals with more than four decimals are not modelled.
- RedsysFactory.ProductDescription: quantities are whole numbers. A fractional `qty_to_invoice` would print with decimals.
- RedsysFactory.Titular: the translated label `__("Email: ")` is taken untranslated.
- RedsysFactory.Factory.GetRedsysProducts: the visible items are the order's `visibleItems`; how Magento selects them (parent and child rows) is not modelled.
- Array insertion order: the EMV3DS block and the request are maps. The order in which PHP arrays list their keys is not captured.
- CancelOrderPending.Cancel: sets the status to canceled unconditionally. `Order::cancel` is not part of this model, so neither is its `canCancel` guard nor the state, inventory and payment updates it makes.
- CancelOrderPending.OrderRepository.Save: the store does not refresh `updated_at` on save, and save failures are not modelled.
- CancelOrderPending.SalesOrder: orders are values. The repository's order objects are changed in place and saved; here the changed value is written back by `Save`, and aliasing between objects is not captured.
- CancelOrderPending.CancelPendingJob.Execute: searches with the intended cutoff `Cutoff(now)` (ten minutes ago), not with `CutoffAsWritten(now)`, which is what the code as written computes (see Findings).
- Time: the current time is an argument, and `updated_at` is a number of seconds in UTC. The PHP default time zone is taken to be UTC, as Magento sets it, and datetime strings are compared as the instants they denote.
- The enable flag: its configuration lookup (with the unimported `ScopeInterface`) is replaced by a boolean argument.
- Search criteria: only the two filters the job builds are modelled (`updated_at` with condition `to`, and `status` with `eq`). Builder state, paging and sorting are left out.

## Findings

| source | as written | input that shows it | evidently intended | confidence | as-written member | corrected member |
|---|---|---|---|---|---|---|
| Cron/CancelOrderPending.php:84-86 | The time is printed with the 12-hour `h` format, read back as a 24-hour time, shifted by ten minutes and printed in 12-hour form again, so the cutoff is off by twelve hours for part of the day. | Run at 00:05:00 UTC (`now` = 300): the cutoff becomes 11:55:00, and a pending Redsys order updated at 00:05:00 is cancelled at once. Run at 13:53:20: the cutoff is 01:43:20, and an order idle since 02:46:40 is kept. | Cutoff = now minus ten minutes (`H` format) | not executed | CancelOrderPending.CutoffAsWritten, CancelOrderPending.CutoffAsWrittenCancelsFreshOrder | CancelOrderPending.Cutoff, CancelOrderPending.EligibleMeansIdleRedsysPending |
