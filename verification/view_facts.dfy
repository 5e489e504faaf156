/** What the payloads built by the refill and transfer handlers lead to once
    they are enqueued and settled. */
module ViewFacts {
  import opened Wrappers
  import opened Models
  import opened Rates
  import opened Tasks
  import opened SettlementFacts
  import opened Views

  /** A refill is denominated in the wallet's own currency, so its settlement
      never needs a second quote: it can only fail on a zero quote or on a
      balance that would go negative, and on success the wallet grows by the
      amount in its own minor units. */
  lemma RefillSettlesInWalletCurrency(l: Ledger, id: WalletId, amount: real, now: Timestamp)
    requires id < |l.wallets|
    requires CreateTransaction(l, RefillPayload(id, l.wallets[id], amount), now).Ok?
    ensures
      var l1 := CreateTransaction(l, RefillPayload(id, l.wallets[id], amount), now).value;
      var t := |l.transactions|;
      var c := l.wallets[id].currency;
      && t < |l1.transactions|
      && c < |l.currencies|
      && LatestRate(l.rates, c, now).Some?
      && (Settle(l1, t).Ok? <==>
            LatestRate(l.rates, c, now).value.rate != 0.0 &&
            l.wallets[id].balance + MinorUnits(amount, l.currencies[c].fractional) >= 0)
      && (Settle(l1, t).Ok? ==>
            Settle(l1, t).value.wallets[id].balance == l.wallets[id].balance + MinorUnits(amount, l.currencies[c].fractional))
  {
  }

  /** A transfer denominated with `currency_use` "FROM" debits the source by
      exactly the amount in the source's minor units; with any other value the
      destination is credited exactly the amount in its own minor units. */
  lemma TransferLegInDenominatingWallet(l: Ledger, fromId: WalletId, toId: WalletId, currencyUse: string, amount: real, now: Timestamp, enqueued: Ledger)
    requires fromId < |l.wallets| && toId < |l.wallets| && fromId != toId
    requires CreateTransaction(l, TransferPayload(fromId, l.wallets[fromId], toId, l.wallets[toId], currencyUse, amount), now) == Ok(enqueued)
    requires |l.transactions| < |enqueued.transactions| && Settle(enqueued, |l.transactions|).Ok?
    ensures
      var settled := Settle(enqueued, |l.transactions|).value;
      && (currencyUse == CURRENCY_USE_FROM ==>
            && l.wallets[fromId].currency < |l.currencies|
            && settled.wallets[fromId].balance ==
               l.wallets[fromId].balance - MinorUnits(amount, l.currencies[l.wallets[fromId].currency].fractional))
      && (currencyUse != CURRENCY_USE_FROM ==>
            && l.wallets[toId].currency < |l.currencies|
            && settled.wallets[toId].balance ==
               l.wallets[toId].balance + MinorUnits(amount, l.currencies[l.wallets[toId].currency].fractional))
  {
  }
}
