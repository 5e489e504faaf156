/** The settlement engine: the helpers of the periodic processing task, the
    settlement of one transaction as an all-or-nothing step, and the enqueue
    guard that refuses a transaction whose currency has no rate yet. */
module Tasks {
  import opened Wrappers
  import opened Models
  import opened Rates

  /** Why a settlement block was left without committing anything. */
  datatype Failure =
    | RateNotFound       // no quote for the transaction currency: the block is left by `continue`
    | MissingRow         // a foreign key that names no row (`DoesNotExist`)
    | DivisionByZero     // a transaction-currency quote of 0
    | NoSourceWallet     // a TRANSFER whose `wallet_from` is null
    | MissingWalletRate  // no quote for a wallet's own currency (`None` reaches arithmetic)
    | InsufficientFunds  // the balance guard refused the change

  /** The row with primary key `id`, as a foreign-key access does it. */
  function Fetch<T>(rows: seq<T>, id: nat): (r: Result<T, Failure>)
    ensures r.Ok? <==> id < |rows|
    ensures r.Ok? ==> r.value == rows[id]
    ensures r.Err? ==> r.error == MissingRow
  {
    if id < |rows| then Ok(rows[id]) else Err(MissingRow)
  }

  /** The transaction amount in US cents: floor(100 * amount / rate). */
  function UsdCents(amount: real, rate: real): int
    requires rate != 0.0
  {
    (100.0 * amount / rate).Floor
  }

  /** An amount in major units converted to minor units: floor(amount * fractional). */
  function MinorUnits(amount: real, fractional: int): int {
    (amount * fractional as real).Floor
  }

  /** The cross-currency leg exactly as the source computes it,
      floor(usd * rate * fractional), although `usd` is already in cents. */
  function CrossAmount(usd: int, rate: real, fractional: int): int {
    (usd as real * rate * fractional as real).Floor
  }

  /** The Operation recorded for a settlement. */
  function CreateOperation(tran: Transaction, usd: int, tranAmount: int): (op: Operation)
    ensures op.currency == tran.currency && op.operation == tran.operation && op.created == tran.created
    ensures op.operAmount == tranAmount && op.usdAmount == usd
  {
    Operation(tran.currency, tran.operation, tranAmount, usd, tran.created)
  }

  /** The leg of `wallet`, in its own currency's minor units.  A wallet in
      the transaction currency takes `tranAmount` unchanged; any other wallet
      needs a quote of its own currency as of the transaction time. */
  function WalletAmount(l: Ledger, tran: Transaction, wallet: Wallet, usd: int, tranAmount: int): (r: Result<int, Failure>)
    ensures r.Err? <==>
      wallet.currency >= |l.currencies| ||
      (wallet.currency != tran.currency && LatestRate(l.rates, wallet.currency, tran.created).None?)
    ensures r.Ok? && wallet.currency == tran.currency ==> r.value == tranAmount
    ensures r.Ok? && wallet.currency != tran.currency ==>
      r.value == CrossAmount(usd, LatestRate(l.rates, wallet.currency, tran.created).value.rate,
                             l.currencies[wallet.currency].fractional)
  {
    var currency :- Fetch(l.currencies, wallet.currency);
    if wallet.currency == tran.currency then Ok(tranAmount)
    else
      var rate :- LatestRate(l.rates, wallet.currency, tran.created).ToResult(MissingWalletRate);
      Ok(CrossAmount(usd, rate.rate, currency.fractional))
  }

  /** The other side of a transfer, with the name it had at settlement time. */
  datatype Partner = Partner(wallet: WalletId, name: string)

  /** The history row for one leg: IN exactly when the signed amount is
      positive (so a zero leg is OUT), the magnitude as amount. */
  function HistoryRow(wallet: WalletId, partner: Option<Partner>, oper: OperationId, date: Timestamp, amount: int): (h: WalletHistory)
    ensures h.wallet == wallet && h.oper == oper && h.operDate == date
    ensures h.direction == In <==> amount > 0
    ensures h.amount >= 0
    ensures SignedAmount(h) == amount
    ensures h.partner.Some? <==> partner.Some?
    ensures partner.Some? ==> h.partner == Some(partner.value.wallet) && h.partnerName == Some(partner.value.name)
    ensures partner.None? ==> h.partnerName.None?
  {
    WalletHistory(
      wallet,
      if partner.Some? then Some(partner.value.wallet) else None,
      if partner.Some? then Some(partner.value.name) else None,
      oper,
      date,
      if amount > 0 then In else Out,
      if amount < 0 then -amount else amount)
  }

  /** The guarded balance change: refused when it would leave the balance
      below zero, otherwise exactly `amount` is added and nothing else moves. */
  function IncBalance(w: Wallet, amount: int): (r: Result<Wallet, Failure>)
    ensures r.Ok? <==> w.balance + amount >= 0
    ensures r.Err? ==> r.error == InsufficientFunds
    ensures r.Ok? ==> r.value.balance >= 0 && r.value.balance - w.balance == amount
    ensures r.Ok? ==> r.value.(balance := w.balance) == w
  {
    if w.balance + amount < 0 then Err(InsufficientFunds)
    else Ok(w.(balance := w.balance + amount))
  }

  /** What the debit of a transfer leaves behind: the wallets after the
      debit, its history rows, and the partner the credit row names. */
  datatype Debit = Debit(wallets: seq<Wallet>, rows: seq<WalletHistory>, partner: Option<Partner>)

  /** The TRANSFER-only first leg: the source wallet is charged its leg and
      gets an OUT row naming the destination. */
  function DebitSource(l: Ledger, tran: Transaction, walletTo: Wallet, oper: OperationId, usd: int, tranAmount: int): (r: Result<Debit, Failure>)
    ensures r.Ok? ==> tran.walletFrom.Some? && tran.walletFrom.value < |l.wallets|
    ensures r.Ok? ==>
      var f := tran.walletFrom.value;
      && WalletAmount(l, tran, l.wallets[f], usd, tranAmount).Ok?
      && var leg := WalletAmount(l, tran, l.wallets[f], usd, tranAmount).value;
      && r.value.wallets == l.wallets[f := l.wallets[f].(balance := l.wallets[f].balance - leg)]
      && r.value.wallets[f].balance >= 0
      && r.value.rows == [HistoryRow(f, Some(Partner(tran.walletTo, walletTo.name)), oper, tran.created, -leg)]
      && r.value.partner == Some(Partner(f, l.wallets[f].name))
  {
    if tran.walletFrom.None? then Err(NoSourceWallet)
    else
      var f := tran.walletFrom.value;
      var walletFrom :- Fetch(l.wallets, f);
      var leg :- WalletAmount(l, tran, walletFrom, usd, tranAmount);
      var row := HistoryRow(f, Some(Partner(tran.walletTo, walletTo.name)), oper, tran.created, -leg);
      var debited :- IncBalance(walletFrom, -leg);
      Ok(Debit(l.wallets[f := debited], [row], Some(Partner(f, walletFrom.name))))
  }

  /** The part of a settlement before the destination's credit: the debit of
      a transfer's source, and nothing for any other operation. */
  function FirstLeg(l: Ledger, tran: Transaction, walletTo: Wallet, oper: OperationId, usd: int, tranAmount: int): (r: Result<Debit, Failure>)
    ensures tran.operation == TRANSFER ==> r == DebitSource(l, tran, walletTo, oper, usd, tranAmount)
    ensures tran.operation != TRANSFER ==> r == Ok(Debit(l.wallets, [], None))
    ensures r.Ok? ==> |r.value.wallets| == |l.wallets|
    ensures r.Ok? ==> |r.value.rows| == (if tran.operation == TRANSFER then 1 else 0)
    ensures r.Ok? ==> forall k :: 0 <= k < |r.value.rows| ==>
      r.value.rows[k].oper == oper && r.value.rows[k].operDate == tran.created && r.value.rows[k].amount >= 0
    ensures r.Ok? ==> forall w :: 0 <= w < |l.wallets| && tran.walletFrom != Some(w) ==> r.value.wallets[w] == l.wallets[w]
    ensures r.Ok? && BalancesNonNegative(l.wallets) ==> BalancesNonNegative(r.value.wallets)
  {
    if tran.operation == TRANSFER then DebitSource(l, tran, walletTo, oper, usd, tranAmount)
    else Ok(Debit(l.wallets, [], None))
  }

  /** The two amounts every leg is derived from. */
  datatype Amounts = Amounts(usd: int, tranAmount: int)

  /** The first part of a settlement: the transaction-currency quote as of
      the transaction time, the amount in US cents and the amount in the
      transaction currency's minor units. */
  function TransactionAmounts(l: Ledger, tran: Transaction): (r: Result<Amounts, Failure>)
    ensures r.Ok? <==>
      && tran.currency < |l.currencies|
      && LatestRate(l.rates, tran.currency, tran.created).Some?
      && LatestRate(l.rates, tran.currency, tran.created).value.rate != 0.0
    ensures r == Err(RateNotFound) <==>
      tran.currency < |l.currencies| && LatestRate(l.rates, tran.currency, tran.created).None?
    ensures r.Ok? ==>
      && r.value.usd == UsdCents(tran.amount, LatestRate(l.rates, tran.currency, tran.created).value.rate)
      && r.value.tranAmount == MinorUnits(tran.amount, l.currencies[tran.currency].fractional)
  {
    var currency :- Fetch(l.currencies, tran.currency);
    var rate :- LatestRate(l.rates, tran.currency, tran.created).ToResult(RateNotFound);
    if rate.rate == 0.0 then Err(DivisionByZero)
    else Ok(Amounts(UsdCents(tran.amount, rate.rate), MinorUnits(tran.amount, currency.fractional)))
  }

  /** Settles transaction `t` inside one atomic block.  `Ok` carries the
      committed ledger; `Err` means the block was rolled back, so the caller
      keeps the ledger it had.  The destination wallet is loaded before the
      source is debited and written back from that copy, as the source does. */
  function Settle(l: Ledger, t: TransactionId): (r: Result<Ledger, Failure>)
    requires t < |l.transactions|
    ensures r.Ok? ==> TransactionAmounts(l, l.transactions[t]).Ok?
    ensures r == Err(RateNotFound) <==>
      l.transactions[t].currency < |l.currencies| &&
      LatestRate(l.rates, l.transactions[t].currency, l.transactions[t].created).None?
    ensures r.Ok? ==> r.value.transactions == l.transactions[t := l.transactions[t].(status := DONE)]
    ensures r.Ok? ==> r.value.currencies == l.currencies && r.value.rates == l.rates
    ensures r.Ok? ==> |r.value.operations| == |l.operations| + 1 && r.value.operations[..|l.operations|] == l.operations
    ensures r.Ok? ==>
      var tran := l.transactions[t];
      var op := r.value.operations[|l.operations|];
      && op.currency == tran.currency && op.operation == tran.operation && op.created == tran.created
      && op.usdAmount == TransactionAmounts(l, tran).value.usd
      && op.operAmount == TransactionAmounts(l, tran).value.tranAmount
    ensures r.Ok? ==>
      && |r.value.histories| == |l.histories| + (if l.transactions[t].operation == TRANSFER then 2 else 1)
      && r.value.histories[..|l.histories|] == l.histories
      && forall k :: |l.histories| <= k < |r.value.histories| ==>
           r.value.histories[k].oper == |l.operations| && r.value.histories[k].operDate == l.transactions[t].created
           && r.value.histories[k].amount >= 0
    ensures r.Ok? ==> |r.value.wallets| == |l.wallets|
    ensures r.Ok? ==> forall w :: (0 <= w < |l.wallets| && w != l.transactions[t].walletTo &&
                                   l.transactions[t].walletFrom != Some(w)) ==> r.value.wallets[w] == l.wallets[w]
    ensures r.Ok? && BalancesNonNegative(l.wallets) ==> BalancesNonNegative(r.value.wallets)
  {
    var tran := l.transactions[t];
    var amounts :- TransactionAmounts(l, tran);
    var oper := CreateOperation(tran, amounts.usd, amounts.tranAmount);
    var operId := |l.operations|;
    var walletTo :- Fetch(l.wallets, tran.walletTo);
    var debit :- FirstLeg(l, tran, walletTo, operId, amounts.usd, amounts.tranAmount);
    var legTo :- WalletAmount(l, tran, walletTo, amounts.usd, amounts.tranAmount);
    var rowTo := HistoryRow(tran.walletTo, debit.partner, operId, tran.created, legTo);
    var credited :- IncBalance(walletTo, legTo);
    Ok(l.(transactions := l.transactions[t := tran.(status := DONE)],
          operations := l.operations + [oper],
          histories := l.histories + debit.rows + [rowTo],
          wallets := debit.wallets[tran.walletTo := credited]))
  }

  /** The data of a new transaction as the views hand it over. */
  datatype TransactionData = TransactionData(
    walletFrom: Option<WalletId>,
    walletTo: WalletId,
    currency: CurrencyId,
    amount: real,
    operation: string)

  /** `create_transaction`: inside one atomic block the transaction is
      inserted (stamped `now`, with the empty status) and then refused, and so
      rolled back, when its currency has no quote at or before `now`.  A
      foreign key naming no row also aborts the block. */
  function CreateTransaction(l: Ledger, data: TransactionData, now: Timestamp): (r: Result<Ledger, Failure>)
    ensures r.Ok? <==>
      && data.currency < |l.currencies|
      && LatestRate(l.rates, data.currency, now).Some?
      && data.walletTo < |l.wallets|
      && (data.walletFrom.Some? ==> data.walletFrom.value < |l.wallets|)
    ensures r == Err(RateNotFound) <==> data.currency < |l.currencies| && LatestRate(l.rates, data.currency, now).None?
    ensures r.Ok? ==> r.value.(transactions := l.transactions) == l
    ensures r.Ok? ==>
      && |r.value.transactions| == |l.transactions| + 1
      && r.value.transactions[..|l.transactions|] == l.transactions
      && var tx := r.value.transactions[|l.transactions|];
      && tx.walletFrom == data.walletFrom && tx.walletTo == data.walletTo
      && tx.currency == data.currency && tx.amount == data.amount && tx.operation == data.operation
      && tx.created == now && Eligible(tx.status)
  {
    var tran := Transaction(data.walletFrom, data.walletTo, data.operation, data.currency, NEW_STATUS, data.amount, now);
    var _ :- Fetch(l.currencies, tran.currency);
    var _ :- LatestRate(l.rates, tran.currency, tran.created).ToResult(RateNotFound);
    var walletTo :- Fetch(l.wallets, tran.walletTo);
    var _ :- if tran.walletFrom.Some? then Fetch(l.wallets, tran.walletFrom.value) else Ok(walletTo);
    Ok(l.(transactions := l.transactions + [tran]))
  }
}
