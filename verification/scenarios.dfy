/** Worked settlements on a small ledger with a US dollar and a euro wallet. */
module Scenarios {
  import opened Wrappers
  import opened Models
  import opened Tasks
  import opened Processing

  const Dollar: Currency := Currency("US Dollar", "USD", 100)
  const Euro: Currency := Currency("Euro", "EUR", 100)

  /** Quotes from time 0: 1 USD per USD, 0.9 EUR per USD. */
  const Quotes: seq<ExchangeRate> := [ExchangeRate(0, 1.0, 0), ExchangeRate(1, 0.9, 0)]

  function Book(w1: int, w2: int, txs: seq<Transaction>): Ledger {
    Ledger([Dollar, Euro], Quotes,
           [Wallet("W1", "City", "Country", 0, w1, 0), Wallet("W2", "City", "Country", 0, w2, 1)],
           txs, [], [])
  }

  /** A refill of 100.00 USD into an empty dollar wallet yields 10000 cents,
      one Operation worth 10000 cents and one IN row of 10000. */
  lemma RefillOfOneHundredDollars()
    ensures
      var l := Book(0, 0, [Transaction(None, 0, REFILL, 0, NEW_STATUS, 100.0, 5)]);
      && Settle(l, 0).Ok?
      && Settle(l, 0).value.wallets[0].balance == 10000
      && Settle(l, 0).value.operations == [Operation(0, REFILL, 10000, 10000, 5)]
      && Settle(l, 0).value.histories == [WalletHistory(0, None, None, 0, 5, In, 10000)]
      && Settle(l, 0).value.transactions[0].status == DONE
  {
  }

  /** A transfer of 50.00 USD from the dollar wallet to the euro wallet: the
      dollar side loses 5000 cents, while the euro side gains
      floor(5000 * 0.9 * 100) = 450000 euro cents, because the cross-currency
      formula multiplies an amount already in cents by the minor-unit factor
      once more. */
  lemma TransferToEuroWallet()
    ensures
      var l := Book(10000, 0, [Transaction(Some(0), 1, TRANSFER, 0, NEW_STATUS, 50.0, 5)]);
      && Settle(l, 0).Ok?
      && Settle(l, 0).value.wallets[0].balance == 5000
      && Settle(l, 0).value.wallets[1].balance == 450000
      && Settle(l, 0).value.histories ==
           [WalletHistory(0, Some(1), Some("W2"), 0, 5, Out, 5000),
            WalletHistory(1, Some(0), Some("W1"), 0, 5, In, 450000)]
  {
  }

  /** A transfer larger than the source balance is refused; a run then
      leaves the ledger exactly as it was, so the transaction, having no
      permanent-failure status, is picked up again by the next run. */
  lemma TransferBeyondBalance()
    ensures
      var l := Book(1000, 0, [Transaction(Some(0), 1, TRANSFER, 0, NEW_STATUS, 50.0, 5)]);
      && Settle(l, 0) == Err(InsufficientFunds)
      && Poll(l) == PollResult(l, 0)
      && PendingOrder(Poll(l).ledger.transactions) == [0]
  {
    var l := Book(1000, 0, [Transaction(Some(0), 1, TRANSFER, 0, NEW_STATUS, 50.0, 5)]);
    PendingOrderOfOne(l.transactions);
    ProcessOne(l, 0);
    assert Settle(l, 0) == Err(InsufficientFunds);
  }

  /** A transfer the dollar wallet cannot pay, dated 5, and a refill of
      100.00 USD into the same wallet, dated 6. */
  const TransferThenRefill: Ledger :=
    Book(1000, 0, [Transaction(Some(0), 1, TRANSFER, 0, NEW_STATUS, 50.0, 5),
                   Transaction(None, 0, REFILL, 0, NEW_STATUS, 100.0, 6)])

  lemma TransferThenRefillSettlements()
    ensures Settle(TransferThenRefill, 0) == Err(InsufficientFunds)
    ensures Settle(TransferThenRefill, 1).Ok?
    ensures Settle(TransferThenRefill, 1).value.wallets[0].balance == 11000
    ensures Settle(TransferThenRefill, 1).value.transactions[0] == TransferThenRefill.transactions[0]
    ensures Settle(TransferThenRefill, 1).value.transactions[1].status == DONE
  {
  }

  /** A refused transfer does not stop the run: the refill listed after it
      is still settled, the counter is one, and the transfer is left as it
      was for the next run. */
  lemma RunContinuesAfterRefusedTransfer()
    ensures
      var l := TransferThenRefill;
      && Poll(l).processed == 1
      && Poll(l).ledger.transactions[0] == l.transactions[0]
      && Poll(l).ledger.transactions[1].status == DONE
      && Poll(l).ledger.wallets[0].balance == 11000
  {
    var l := TransferThenRefill;
    PendingOrderOfTwo(l.transactions);
    TransferThenRefillSettlements();
    var settled := Settle(l, 1).value;
    assert Process(l, [0, 1]) == Process(l, [1]);
    assert [1][1..] == [];
    assert Process(l, [1]) == PollResult(Process(settled, []).ledger, Process(settled, []).processed + 1);
    assert Poll(l) == PollResult(settled, 1);
  }

  /** A dollar ledger with one pending refill of 100.00 USD dated 5 and,
      as given, no quote at all. */
  const Unquoted: Ledger :=
    Ledger([Dollar], [], [Wallet("W1", "City", "Country", 0, 0, 0)],
           [Transaction(None, 0, REFILL, 0, NEW_STATUS, 100.0, 5)], [], [])

  /** Without a quote as of its time the refill is skipped: a run changes
      nothing and reports zero, and the refill stays pending. */
  lemma UnquotedRefillIsSkipped()
    ensures Poll(Unquoted) == PollResult(Unquoted, 0)
    ensures PendingOrder(Poll(Unquoted).ledger.transactions) == [0]
  {
    PendingOrderOfOne(Unquoted.transactions);
    ProcessOne(Unquoted, 0);
    assert Settle(Unquoted, 0) == Err(RateNotFound);
  }

  /** Once a quote dated before the refill is added, the next run settles
      it: the counter is one, the refill is done and the wallet holds 10000
      cents. */
  lemma QuotedRefillSettles()
    ensures
      var quoted := Unquoted.(rates := [ExchangeRate(0, 1.0, 3)]);
      && Poll(quoted).processed == 1
      && Poll(quoted).ledger.transactions[0].status == DONE
      && Poll(quoted).ledger.wallets[0].balance == 10000
  {
    var quoted := Unquoted.(rates := [ExchangeRate(0, 1.0, 3)]);
    PendingOrderOfOne(quoted.transactions);
    ProcessOne(quoted, 0);
    assert Settle(quoted, 0).Ok?;
  }
}
