# Settlement engine of a multi-currency wallet ledger, in Dafny

This project models the core of a Django payment system. Clients hold wallets in a currency of
their choice. Money enters by a REFILL and moves between wallets by a TRANSFER. Both are queued
as `Transaction` rows and settled later by a periodic task, `processing_transactions`.

That task takes every transaction whose status is neither `"start"` nor `"done"`, oldest first.
For each one, inside a single database transaction, it:

- looks up the latest exchange rate at or before the transaction time;
- converts the amount to US cents and to the transaction currency's minor units;
- records an `Operation`;
- computes each wallet's leg in that wallet's own currency;
- writes one `WalletHistory` row per leg;
- applies the balance changes, each guarded against going below zero;
- marks the transaction `"done"`.

Any failure rolls the whole block back, and the loop moves on to the next transaction.

The model is functional:

- The database is an immutable `Ledger` value (`models.dfy`). It holds one sequence per table,
  and a row's primary key is its position.
- The atomic block is a function returning `Result<Ledger, Failure>`. `Err` means rolled back,
  and the caller keeps the ledger it had.
- The periodic task is a fold over the pending transactions sorted by creation time
  (`processing.dfy`).

The other modules cover the rest of the core:

- `rates.dfy`: the as-of rate lookup.
- `tasks.dfy`: the settlement helpers, one settlement, and the enqueue guard of `create_transaction`.
- `settlement_facts.dfy`: balance and history effects for each kind of transaction.
- `views.dfy`, `view_facts.dfy`: the refill and transfer payloads, and the per-wallet history
  report with its CSV rows.
- `serializers.dfy`: currency resolution, and wallet and rate creation. `ExchangeRateSerializer.validate_currency` (api/serializers.py:38-50) repeats the wallet serializer's rule, so both use the one function `ResolveCurrency`.
- `scenarios.dfy`: worked examples on a small ledger.

Behaviour of the code worth knowing, which the model keeps:

- **No permanent failure.** Insufficient funds only rolls back. The transaction keeps its
  eligible status and is tried again on every later run.
- **Status is free text.** A new transaction gets the empty status, which is eligible.
- **Direction comes from the sign.** A history row is IN exactly when its signed leg is positive.
  A zero leg is therefore recorded as OUT, and a negative refill becomes an OUT row on the
  destination.
- **Only exact `"TRANSFER"` has a source leg.** Every other operation string is settled like a
  refill, with one row and no partner.
- **Cross-currency formula kept as written.** A leg in a foreign currency is
  `floor(usd * rate * fractional)`, with `usd` already in cents. `Scenarios.TransferToEuroWallet`
  shows that a 50 USD transfer credits 450000 euro cents.
- **Self-transfer loses the debit.** The destination wallet is loaded before the source is
  debited and saved afterwards from that stale copy. `SettlementFacts.SelfTransferLosesDebit`
  states the result: the balance grows by the leg while the two history rows cancel out.
- **Text fields are stripped first.** The serializer fields strip surrounding whitespace and
  refuse text that is blank afterwards, before `validate_currency` runs. So `" USD"` names
  the dollar, and the `"This field is required."` branch of `validate_currency` is never
  reached through wallet or rate creation.

## Model

| member | source | states |
|---|---|---|
| Rates.LatestRate | api/tasks.py:86-87 | the result is a rate of that currency dated at or before the moment, at least as recent as every other such rate; None exactly when no rate qualifies |
| Rates.LatestRateIsDetermined | api/models.py:45 | under uniqueness of (currency, created), the most recent qualifying rate is the only possible answer |
| Rates.LatestRateSurvivesAppend | api/tasks.py:86-89 | adding rates never makes a successful lookup fail or return an older rate |
| Rates.LatestRateOfFreshQuote | api/tasks.py:86-87 | a quote appended for a (currency, time) pair that no earlier quote has is what a lookup at that time returns |
| Rates.LatestRateIgnoresLaterRates | api/tasks.py:86-87 | rates dated after the lookup moment never change its answer |
| Tasks.TransactionAmounts | api/tasks.py:86-92 | succeeds exactly when the currency exists and has a non-zero rate as of the transaction time; RateNotFound exactly when it has none; gives floor(100*amount/rate) cents and floor(amount*fractional) minor units |
| Tasks.CreateOperation | api/tasks.py:34-44 | the Operation carries the transaction's currency, operation name and time, and the two computed amounts |
| Tasks.WalletAmount | api/tasks.py:25-31 | a wallet in the transaction currency gets the transaction's minor units; any other wallet fails exactly when its currency has no rate as of the transaction time, and otherwise gets floor(usd*rate*fractional) |
| Tasks.HistoryRow | api/tasks.py:47-61 | direction is IN iff the signed leg is positive; the stored amount is non-negative and the signed amount reads back as the leg; partner id and name are both set iff a partner is given |
| Tasks.IncBalance | api/tasks.py:64-72 | the change is accepted iff the new balance is non-negative, then it adds exactly the amount and nothing else changes; otherwise InsufficientFunds |
| Tasks.DebitSource | api/tasks.py:98-102 | a transfer's debit needs a source wallet and its leg, lowers only the source by that leg, leaves it non-negative and writes one row naming the destination |
| Tasks.Settle | api/tasks.py:84-110 | on success exactly this transaction becomes done, one Operation with the computed amounts is appended, two history rows (one for non-transfers) tied to it are appended, only the two parties' wallets change, rates and currencies are untouched and non-negative balances stay non-negative; RateNotFound exactly when the currency has no rate |
| Tasks.CreateTransaction | api/tasks.py:9-22 | the transaction is kept iff its currency has a rate at or before the creation time and its references exist; then it is appended, eligible, stamped with the creation time, and nothing else changes |
| SettlementFacts.RefillCreditsDestination | api/tasks.py:95-106 | a settled non-transfer writes one partnerless row on the destination whose signed amount is the destination's leg and is exactly the balance change; no other wallet changes |
| SettlementFacts.TransferMovesBothLegs | api/tasks.py:98-106 | for distinct wallets, the source had its leg and loses it, the destination gains its leg, and the OUT-side and IN-side rows name each other with their names at settlement time and record each wallet's balance change |
| SettlementFacts.TransferSettlesIffFunded | api/tasks.py:98-106 | once the amounts, both wallets and both legs are available, a transfer settles iff the source holds its leg and the destination stays non-negative after its own leg; otherwise it is InsufficientFunds |
| SettlementFacts.RefillSettlesIffBalanceStaysNonNegative | api/tasks.py:95-106 | once the amounts and the destination's leg are available, any other operation settles iff the destination stays non-negative; otherwise it is InsufficientFunds |
| SettlementFacts.TransferRefusedWithoutFunds | api/tasks.py:99-102 | a transfer whose source holds less than its leg settles to InsufficientFunds |
| SettlementFacts.SelfTransferLosesDebit | api/tasks.py:95-106 | a transfer to the same wallet raises its balance by the leg while its two history rows sum to zero |
| SettlementFacts.EnqueuedIsNeverSkipped | api/tasks.py:14-20 | a transaction accepted by the enqueue guard is never skipped for a missing rate in any later ledger with the same currencies and more rates |
| Processing.PendingOrder | api/tasks.py:80 | lists exactly the transactions whose status is neither start nor done, each once, strictly ordered by creation time and then primary key |
| Processing.Process | api/tasks.py:83-112 | a first transaction that settles is marked done and counted; the counter never exceeds the list; one Operation per settlement and one or two rows each; every transaction is either untouched or, if listed, marked done; existing rows, rates and currencies are kept |
| Processing.ProcessAppend | api/tasks.py:83-112 | a run over two lists in a row is the run over the first followed by the run over the second from the ledger the first left, with the counters added; so a failed settlement never stops the run and every later transaction is still tried |
| Processing.ProcessIdleWhenNothingSettles | api/tasks.py:83-112 | a run reports zero exactly when its ledger is the one it started from |
| Processing.ProcessKeepsBalancesNonNegative | api/tasks.py:64-72 | when every balance starts non-negative, no run leaves a balance below zero |
| Processing.ProcessOne | api/tasks.py:83-112 | a run over one transaction is that transaction's settlement counted once, or no change and zero when the settlement fails |
| Processing.PendingOrderOfOne | api/tasks.py:80 | a ledger whose only transaction is eligible runs exactly that transaction |
| Processing.PendingOrderOfTwo | api/tasks.py:80 | two eligible transactions are run oldest first |
| Processing.ProcessCountsDone | api/tasks.py:108-110 | settling distinct not-yet-done transactions marks exactly as many done as the counter reports |
| Processing.PollSettlesAtMostOnce | api/tasks.py:108-113 | one run moves exactly the reported number of transactions to done and leaves every done transaction as it was |
| Processing.NextPollRetriesFailures | api/tasks.py:80-112 | the next run selects exactly the transactions that were eligible and were not settled |
| Processing.PollIdleWithoutRates | api/tasks.py:86-89 | when no eligible transaction's currency has a rate at its time, a run changes nothing and reports zero |
| Processing.Poll | api/tasks.py:75-113 | one run counts at most as many settlements as there are eligible transactions, changes only eligible transactions and only by marking them done, appends one Operation per settlement, and leaves quotes and currencies alone |
| Views.RefillPayload | api/views.py:58-64 | the refill targets the named wallet in that wallet's own currency, has no source and is a REFILL |
| Views.TransferPayload | api/views.py:84-92 | the transfer goes from the first to the second wallet and is denominated in the source's currency when currency_use is FROM, otherwise in the destination's |
| ViewFacts.RefillSettlesInWalletCurrency | api/views.py:58-63 | once enqueued, a refill is never skipped and never lacks a wallet rate; it settles iff the rate is non-zero and the balance stays non-negative, and then credits exactly floor(amount*fractional) of the wallet's currency |
| ViewFacts.TransferLegInDenominatingWallet | api/views.py:84-91 | a settled transfer moves exactly floor(amount*fractional) on the wallet whose currency denominates it |
| Views.ReportIndices | api/views.py:104-109 | the report keeps exactly the named wallet's rows within the optional inclusive bounds, in primary-key order |
| Views.ClientReport | api/views.py:129-132 | fails with "There are no transactions for this wallet." iff no row matches; otherwise yields the matching rows joined with their operation's USD amount |
| Views.RowCells | api/views.py:111-119 | a report line becomes seven fields in the fixed column order, and they read back as the line |
| Views.CsvTable | api/views.py:182-184 | the export is the header line followed by one line per report row in order, each reading back as its row |
| Serializers.ResolveCurrency | api/serializers.py:12-24 | empty input is "This field is required."; all-digit input resolves only as a primary key, else "No currency with such Pk."; other input resolves iff exactly one currency has that ISO code, "No currency with such ISO code." iff none has it |
| Serializers.NumeralRoundTrip | api/serializers.py:16-18 | a primary key written in decimal is all digits and reads back as itself |
| Serializers.PrimaryKeyResolves | api/serializers.py:16-18 | every existing currency resolves from its primary key written in decimal |
| Serializers.CodeMatches | api/serializers.py:21-24 | lists exactly the currencies carrying an ISO code, in primary-key order |
| Serializers.CreateWallet | api/serializers.py:6-28 | every text field is stripped; a blank name is refused as blank and a taken name as not unique; a wallet is created iff no field is blank, the stripped name is new and the stripped currency resolves; it stores the stripped texts and starts with balance 0, so non-negative balances and unique names are kept |
| Serializers.CreateRate | api/serializers.py:31-54 | a blank currency text is refused as blank; a rate is added iff the stripped currency text resolves and (currency, created) is new, so rates stay unique per currency and time |
| Serializers.Strip | api/serializers.py:10 | the stripped text is empty iff the input is all whitespace, and otherwise neither starts nor ends with whitespace |
| Serializers.StripPadding | api/serializers.py:10 | whitespace around text without surrounding whitespace is removed and nothing else is |
| Serializers.TextField | api/serializers.py:10 | text that is all whitespace is refused with "This field may not be blank."; any other text is read as its stripped form |
| Serializers.PaddedTextIsRead | api/serializers.py:34 | padded text is read as the text itself, so a padded primary key or ISO code names the same currency |
| Serializers.NewRateGovernsItsMoment | api/models.py:36-45 | a newly accepted rate is the one a lookup at its own time returns |
| Scenarios.RefillOfOneHundredDollars | api/tasks.py:91-110 | a refill of 100.00 USD at rate 1.0 into an empty dollar wallet gives 10000 cents, one Operation and one IN row of 10000 |
| Scenarios.TransferToEuroWallet | api/tasks.py:25-31 | 50.00 USD to a euro wallet at 0.9 debits 5000 cents and credits 450000 euro cents |
| Scenarios.TransferBeyondBalance | api/tasks.py:64-69 | a transfer above the source balance is refused, a run leaves the ledger exactly as it was and reports zero, and the next run selects the transaction again |
| Scenarios.TransferThenRefillSettlements | api/tasks.py:95-110 | on a ledger where the dollar wallet holds 1000 cents, the 50.00 USD transfer is refused and the 100.00 USD refill settles to 11000 cents |
| Scenarios.RunContinuesAfterRefusedTransfer | api/tasks.py:83-112 | a run over that ledger settles the refill after the refused transfer, reports one, and leaves the transfer as it was |
| Scenarios.UnquotedRefillIsSkipped | api/tasks.py:86-89 | a refill with no quote as of its time is skipped: a run changes nothing, reports zero and leaves it pending |
| Scenarios.QuotedRefillSettles | api/tasks.py:86-110 | once a quote dated before that refill is added, the next run settles it, reports one and credits 10000 cents |

## Left out

- Task-queue dispatch (`.delay`, the Celery app in payment_system/celeryconf.py) is left out. A run of the periodic task is a plain function call.
- The task's return text `'<n> transactions processed'` is left out. The model returns the number `n`.
- The warning logged for a failed settlement is left out. A failure is only the `Err` value.
- Concurrency between workers is left out. The source has no locking, and the model is strictly sequential.
- Floating-point behaviour of `amount` and `rate` is left out: rounding, NaN and infinities. Both are exact `real`s, and `math.floor` is `.Floor`.
- The parsing of `amount` from request text is left out.
- The 64-bit limit of `BigIntegerField` and the 16-bit limit of `fractional` are left out. Integers are unbounded, so an overflow error the database would raise is not modelled.
- Primary keys are positions starting at 0, not database-assigned ids starting at 1.
- A foreign key that names no row becomes the failure `MissingRow`. In the real schema the database prevents this.
- Ties in `order_by('created')` are broken by primary key. The database leaves that order unspecified.
- Of two rates with equal time, the earlier inserted one wins. The uniqueness constraint rules this case out in a real store.
- `ExchangeRate.save` filling `created` from the wall clock (api/models.py:50-54) is left out. `created` is always supplied.
- The serializers that resolve wallet names (`WalletRefillByNameSerializer`, `WalletToWalletByNameSerializer`) are not part of this model. The payload functions receive the resolved wallet.
- The name resolution of the report is not part of this model either: `ClientReportSerializer` as written declares `name` as plain text. `Views.ClientReport` receives the wallet id.
- The HTML page, the XML export and the file names of the report (api/views.py:134-181) are left out. So is the CSV text encoding: quoting, the byte-order mark, and how `smart_str` renders values. CSV fields are the `Cell` datatype.
- `str.isdigit` is modelled for ASCII digits only. Other Unicode digits are treated as ISO codes.
- The maximum lengths of the text fields are left out, and so is a missing field: every field is given as text.
- Django REST framework reports the errors of all fields together. `CreateWallet` reports only the first, taking the fields in the order name, city, country, currency.
- HTTP error mapping (api/decorators.py), URL patterns, admin, factories, migrations and the HTTP-level tests are left out.
- Processing.Process: bounds the number of new history rows between one and two per settlement rather than naming them. The exact rows of each settlement are stated by `Tasks.Settle` and `SettlementFacts`.
