/** What one settlement does to balances and to the audit trail, stated per
    kind of transaction. */
module SettlementFacts {
  import opened Wrappers
  import opened Models
  import opened Rates
  import opened Tasks

  /** The leg of wallet `w` for `tran`, computed from the transaction's amounts. */
  function Leg(l: Ledger, tran: Transaction, w: WalletId): Result<int, Failure>
    requires TransactionAmounts(l, tran).Ok? && w < |l.wallets|
  {
    var a := TransactionAmounts(l, tran).value;
    WalletAmount(l, tran, l.wallets[w], a.usd, a.tranAmount)
  }

  /** A settled refill (any operation other than TRANSFER) writes one row on
      the destination, with no partner, and changes the destination's balance
      by exactly the row's signed amount, which is the destination's leg. */
  lemma RefillCreditsDestination(l: Ledger, t: TransactionId)
    requires t < |l.transactions| && l.transactions[t].operation != TRANSFER
    requires Settle(l, t).Ok?
    ensures
      var tran := l.transactions[t];
      var l' := Settle(l, t).value;
      && TransactionAmounts(l, tran).Ok?
      && tran.walletTo < |l.wallets|
      && Leg(l, tran, tran.walletTo).Ok?
      && |l'.histories| == |l.histories| + 1
      && var row := l'.histories[|l.histories|];
      && row.wallet == tran.walletTo && row.partner.None? && row.partnerName.None?
      && SignedAmount(row) == Leg(l, tran, tran.walletTo).value
      && l'.wallets == l.wallets[tran.walletTo := l.wallets[tran.walletTo].(balance := l.wallets[tran.walletTo].balance + SignedAmount(row))]
  {
  }

  /** A settled transfer between two different wallets takes the source's
      leg from the source and adds the destination's leg to the destination;
      the source had at least its leg.  The first new row is the source's,
      naming the destination; the second is the destination's, naming the
      source; each row's signed amount is the change of its wallet's balance. */
  lemma TransferMovesBothLegs(l: Ledger, t: TransactionId)
    requires t < |l.transactions| && l.transactions[t].operation == TRANSFER
    requires l.transactions[t].walletFrom != Some(l.transactions[t].walletTo)
    requires Settle(l, t).Ok?
    ensures
      var tran := l.transactions[t];
      var l' := Settle(l, t).value;
      && TransactionAmounts(l, tran).Ok?
      && tran.walletFrom.Some?
      && var f := tran.walletFrom.value;
      && var to := tran.walletTo;
      && f < |l.wallets| && to < |l.wallets|
      && Leg(l, tran, f).Ok? && Leg(l, tran, to).Ok?
      && l.wallets[f].balance >= Leg(l, tran, f).value
      && l'.wallets[f] == l.wallets[f].(balance := l.wallets[f].balance - Leg(l, tran, f).value)
      && l'.wallets[to] == l.wallets[to].(balance := l.wallets[to].balance + Leg(l, tran, to).value)
      && var out := l'.histories[|l.histories|];
      && var inn := l'.histories[|l.histories| + 1];
      && out.wallet == f && out.partner == Some(to) && out.partnerName == Some(l.wallets[to].name)
      && inn.wallet == to && inn.partner == Some(f) && inn.partnerName == Some(l.wallets[f].name)
      && SignedAmount(out) == l'.wallets[f].balance - l.wallets[f].balance
      && SignedAmount(inn) == l'.wallets[to].balance - l.wallets[to].balance
  {
  }

  /** A transfer whose source holds less than its leg is refused with
      InsufficientFunds once everything before the debit has succeeded. */
  lemma TransferRefusedWithoutFunds(l: Ledger, t: TransactionId)
    requires t < |l.transactions| && l.transactions[t].operation == TRANSFER
    requires TransactionAmounts(l, l.transactions[t]).Ok?
    requires l.transactions[t].walletTo < |l.wallets|
    requires l.transactions[t].walletFrom.Some? && l.transactions[t].walletFrom.value < |l.wallets|
    requires Leg(l, l.transactions[t], l.transactions[t].walletFrom.value).Ok?
    requires l.wallets[l.transactions[t].walletFrom.value].balance < Leg(l, l.transactions[t], l.transactions[t].walletFrom.value).value
    ensures Settle(l, t) == Err(InsufficientFunds)
  {
  }

  /** Once the amounts, both wallets and both legs are available, a transfer
      settles exactly when the source can pay its leg and the destination's
      balance stays non-negative after its own leg; otherwise it is refused
      with InsufficientFunds. */
  lemma TransferSettlesIffFunded(l: Ledger, t: TransactionId)
    requires t < |l.transactions| && l.transactions[t].operation == TRANSFER
    requires TransactionAmounts(l, l.transactions[t]).Ok?
    requires l.transactions[t].walletTo < |l.wallets|
    requires l.transactions[t].walletFrom.Some? && l.transactions[t].walletFrom.value < |l.wallets|
    requires Leg(l, l.transactions[t], l.transactions[t].walletFrom.value).Ok?
    requires Leg(l, l.transactions[t], l.transactions[t].walletTo).Ok?
    ensures
      var tran := l.transactions[t];
      var f := tran.walletFrom.value;
      var to := tran.walletTo;
      && (Settle(l, t).Ok? <==>
            l.wallets[f].balance >= Leg(l, tran, f).value &&
            l.wallets[to].balance + Leg(l, tran, to).value >= 0)
      && (Settle(l, t).Err? ==> Settle(l, t) == Err(InsufficientFunds))
  {
  }

  /** Once the amounts and the destination's leg are available, any operation
      other than TRANSFER settles exactly when the destination's balance stays
      non-negative; otherwise it is refused with InsufficientFunds. */
  lemma RefillSettlesIffBalanceStaysNonNegative(l: Ledger, t: TransactionId)
    requires t < |l.transactions| && l.transactions[t].operation != TRANSFER
    requires TransactionAmounts(l, l.transactions[t]).Ok?
    requires l.transactions[t].walletTo < |l.wallets|
    requires Leg(l, l.transactions[t], l.transactions[t].walletTo).Ok?
    ensures
      var tran := l.transactions[t];
      && (Settle(l, t).Ok? <==> l.wallets[tran.walletTo].balance + Leg(l, tran, tran.walletTo).value >= 0)
      && (Settle(l, t).Err? ==> Settle(l, t) == Err(InsufficientFunds))
  {
  }

  /** A transfer from a wallet to itself: the destination copy is loaded
      before the debit and written back after it, so the debit is lost.  The
      two rows cancel out while the balance grows by the leg. */
  lemma SelfTransferLosesDebit(l: Ledger, t: TransactionId)
    requires t < |l.transactions| && l.transactions[t].operation == TRANSFER
    requires l.transactions[t].walletFrom == Some(l.transactions[t].walletTo)
    requires Settle(l, t).Ok?
    ensures
      var tran := l.transactions[t];
      var l' := Settle(l, t).value;
      var w := tran.walletTo;
      && TransactionAmounts(l, tran).Ok?
      && w < |l.wallets|
      && Leg(l, tran, w).Ok?
      && l'.wallets[w].balance == l.wallets[w].balance + Leg(l, tran, w).value
      && SignedAmount(l'.histories[|l.histories|]) + SignedAmount(l'.histories[|l.histories| + 1]) == 0
  {
  }

  /** The enqueue guard and the settlement look the rate up the same way, and
      rates are only ever added: a transaction that was accepted is never
      skipped for want of a rate, in any later state of the ledger. */
  lemma EnqueuedIsNeverSkipped(l: Ledger, data: TransactionData, now: Timestamp, later: Ledger)
    requires CreateTransaction(l, data, now).Ok?
    requires |later.transactions| > |l.transactions|
    requires later.transactions[|l.transactions|] == CreateTransaction(l, data, now).value.transactions[|l.transactions|]
    requires later.currencies == l.currencies
    requires l.rates <= later.rates
    ensures Settle(later, |l.transactions|) != Err(RateNotFound)
  {
  }
}
