/** One run of the periodic processing task: select every eligible
    transaction, oldest first, and settle them one after another, keeping
    the ledger of a failed settlement unchanged. */
module Processing {
  import opened Wrappers
  import opened Models
  import opened Rates
  import opened Tasks

  /** The processing order: by `created`, and by primary key among equals. */
  predicate Before(txs: seq<Transaction>, i: TransactionId, j: TransactionId)
    requires i < |txs| && j < |txs|
  {
    txs[i].created < txs[j].created || (txs[i].created == txs[j].created && i < j)
  }

  /** `s` lists transactions of `txs`, each strictly before the next. */
  ghost predicate InOrder(txs: seq<Transaction>, s: seq<TransactionId>) {
    && (forall k :: 0 <= k < |s| ==> s[k] < |txs|)
    && (forall a, b :: 0 <= a < b < |s| ==> s[a] < |txs| && s[b] < |txs| && Before(txs, s[a], s[b]))
  }

  ghost predicate Distinct(s: seq<TransactionId>) {
    forall a, b :: 0 <= a < b < |s| ==> s[a] != s[b]
  }

  /** The eligible transactions among the first `n`, in primary-key order. */
  function EligibleBelow(txs: seq<Transaction>, n: nat): (r: seq<TransactionId>)
    requires n <= |txs|
    ensures forall k :: 0 <= k < |r| ==> r[k] < n
    ensures forall i :: i in r <==> 0 <= i < n && Eligible(txs[i].status)
    ensures forall a, b :: 0 <= a < b < |r| ==> r[a] < r[b]
  {
    if n == 0 then []
    else EligibleBelow(txs, n - 1) + (if Eligible(txs[n - 1].status) then [n - 1] else [])
  }

  /** Puts `i` into its place in the ordered list `s`. */
  function Insert(txs: seq<Transaction>, i: TransactionId, s: seq<TransactionId>): (r: seq<TransactionId>)
    requires i < |txs| && i !in s && InOrder(txs, s)
    ensures InOrder(txs, r)
    ensures forall x :: x in r <==> x == i || x in s
    ensures |r| == |s| + 1
  {
    if |s| == 0 then [i]
    else if Before(txs, i, s[0]) then [i] + s
    else
      var rest := Insert(txs, i, s[1..]);
      assert forall x :: x in s[1..] ==> Before(txs, s[0], x) by {
        forall x | x in s[1..] ensures Before(txs, s[0], x) {
          var k :| 0 <= k < |s[1..]| && s[1..][k] == x;
          assert s[k + 1] == x;
        }
      }
      [s[0]] + rest
  }

  /** Insertion sort of distinct transaction ids into processing order. */
  function SortByCreated(txs: seq<Transaction>, s: seq<TransactionId>): (r: seq<TransactionId>)
    requires forall k :: 0 <= k < |s| ==> s[k] < |txs|
    requires Distinct(s)
    ensures InOrder(txs, r)
    ensures forall x :: x in r <==> x in s
    ensures |r| == |s|
  {
    if |s| == 0 then []
    else
      assert s[0] !in s[1..];
      Insert(txs, s[0], SortByCreated(txs, s[1..]))
  }

  /** `exclude(status__in=['start', 'done']).order_by('created')`: exactly
      the eligible transactions, oldest first, each once. */
  function PendingOrder(txs: seq<Transaction>): (r: seq<TransactionId>)
    ensures forall i :: i in r <==> 0 <= i < |txs| && Eligible(txs[i].status)
    ensures InOrder(txs, r)
    ensures Distinct(r)
  {
    SortByCreated(txs, EligibleBelow(txs, |txs|))
  }

  /** The ledger after a run and the run's counter of settled transactions. */
  datatype PollResult = PollResult(ledger: Ledger, processed: nat)

  /** Settles the transactions of `order` one by one.  A failed settlement
      leaves the ledger as it was and the loop goes on; a successful one is
      counted. */
  function Process(l: Ledger, order: seq<TransactionId>): (r: PollResult)
    requires forall k :: 0 <= k < |order| ==> order[k] < |l.transactions|
    ensures r.processed <= |order|
    ensures r.ledger.currencies == l.currencies && r.ledger.rates == l.rates
    ensures |r.ledger.wallets| == |l.wallets| && |r.ledger.transactions| == |l.transactions|
    ensures |r.ledger.operations| == |l.operations| + r.processed
    ensures r.ledger.operations[..|l.operations|] == l.operations
    ensures |l.histories| + r.processed <= |r.ledger.histories| <= |l.histories| + 2 * r.processed
    ensures r.ledger.histories[..|l.histories|] == l.histories
    ensures forall i :: 0 <= i < |l.transactions| ==>
      r.ledger.transactions[i] == l.transactions[i] ||
      (i in order && r.ledger.transactions[i] == l.transactions[i].(status := DONE))
    ensures |order| > 0 && Settle(l, order[0]).Ok? ==>
      r.processed >= 1 && r.ledger.transactions[order[0]].status == DONE
    decreases |order|
  {
    if |order| == 0 then PollResult(l, 0)
    else
      match Settle(l, order[0])
      case Ok(next) =>
        var rest := Process(next, order[1..]);
        assert rest.ledger.operations[..|l.operations|] == next.operations[..|l.operations|];
        assert rest.ledger.histories[..|l.histories|] == next.histories[..|l.histories|];
        PollResult(rest.ledger, rest.processed + 1)
      case Err(_) =>
        Process(l, order[1..])
  }

  /** A run that reports zero settled nothing: its ledger is the one it
      started from.  (A run that reports more has appended Operations, so its
      ledger differs.) */
  lemma {:induction false} ProcessIdleWhenNothingSettles(l: Ledger, order: seq<TransactionId>)
    requires forall k :: 0 <= k < |order| ==> order[k] < |l.transactions|
    ensures Process(l, order).processed == 0 <==> Process(l, order).ledger == l
    decreases |order|
  {
    if |order| > 0 {
      match Settle(l, order[0])
      case Ok(next) =>
      case Err(_) =>
        ProcessIdleWhenNothingSettles(l, order[1..]);
    }
  }

  /** No settlement of a run drives a balance below zero. */
  lemma {:induction false} ProcessKeepsBalancesNonNegative(l: Ledger, order: seq<TransactionId>)
    requires forall k :: 0 <= k < |order| ==> order[k] < |l.transactions|
    requires BalancesNonNegative(l.wallets)
    ensures BalancesNonNegative(Process(l, order).ledger.wallets)
    decreases |order|
  {
    if |order| > 0 {
      match Settle(l, order[0])
      case Ok(next) =>
        ProcessKeepsBalancesNonNegative(next, order[1..]);
      case Err(_) =>
        ProcessKeepsBalancesNonNegative(l, order[1..]);
    }
  }

  /** `processing_transactions`: one run over the eligible transactions.
      Only eligible transactions change, and each that changes becomes
      "done"; quotes and currencies stay as they are. */
  function Poll(l: Ledger): (r: PollResult)
    ensures r.processed <= |PendingOrder(l.transactions)|
    ensures r.ledger.currencies == l.currencies && r.ledger.rates == l.rates
    ensures |r.ledger.transactions| == |l.transactions|
    ensures forall i :: 0 <= i < |l.transactions| ==>
      r.ledger.transactions[i] == l.transactions[i] ||
      (Eligible(l.transactions[i].status) && r.ledger.transactions[i] == l.transactions[i].(status := DONE))
    ensures |r.ledger.operations| == |l.operations| + r.processed
  {
    Process(l, PendingOrder(l.transactions))
  }

  /** A run over `a + b` is a run over `a` followed by a run over `b` from
      the ledger the first left behind, with the counters added: a failed
      settlement never stops the run, and every later transaction is still
      settled against the ledger as it stands then. */
  lemma {:induction false} ProcessAppend(l: Ledger, a: seq<TransactionId>, b: seq<TransactionId>)
    requires forall k :: 0 <= k < |a| ==> a[k] < |l.transactions|
    requires forall k :: 0 <= k < |b| ==> b[k] < |l.transactions|
    ensures
      var first := Process(l, a);
      var second := Process(first.ledger, b);
      Process(l, a + b) == PollResult(second.ledger, first.processed + second.processed)
    decreases |a|
  {
    if |a| == 0 {
      assert a + b == b;
    } else {
      var ab := a + b;
      assert ab[0] == a[0] && ab[1..] == a[1..] + b;
      if Settle(l, a[0]).Ok? {
        ProcessAppend(Settle(l, a[0]).value, a[1..], b);
      } else {
        ProcessAppend(l, a[1..], b);
      }
    }
  }

  /** A run over a single transaction is that transaction's settlement, or
      nothing if it fails. */
  lemma ProcessOne(l: Ledger, t: TransactionId)
    requires t < |l.transactions|
    ensures Process(l, [t]) == if Settle(l, t).Ok? then PollResult(Settle(l, t).value, 1) else PollResult(l, 0)
  {
  }

  /** A ledger whose only transaction is eligible runs exactly that one. */
  lemma PendingOrderOfOne(txs: seq<Transaction>)
    requires |txs| == 1 && Eligible(txs[0].status)
    ensures PendingOrder(txs) == [0]
  {
  }

  /** Two eligible transactions are run oldest first. */
  lemma PendingOrderOfTwo(txs: seq<Transaction>)
    requires |txs| == 2 && Eligible(txs[0].status) && Eligible(txs[1].status)
    requires txs[0].created < txs[1].created
    ensures PendingOrder(txs) == [0, 1]
  {
    assert EligibleBelow(txs, 2) == [0, 1];
  }

  /** How many transactions are marked "done". */
  function CountDone(txs: seq<Transaction>): nat {
    if |txs| == 0 then 0
    else CountDone(txs[..|txs| - 1]) + (if txs[|txs| - 1].status == DONE then 1 else 0)
  }

  lemma {:induction false} CountDoneAfterUpdate(txs: seq<Transaction>, i: nat, x: Transaction)
    requires i < |txs|
    ensures CountDone(txs[i := x]) + (if txs[i].status == DONE then 1 else 0) ==
            CountDone(txs) + (if x.status == DONE then 1 else 0)
  {
    var n := |txs|;
    if i < n - 1 {
      assert txs[i := x][..n - 1] == txs[..n - 1][i := x];
      CountDoneAfterUpdate(txs[..n - 1], i, x);
    } else {
      assert txs[i := x][..n - 1] == txs[..n - 1];
    }
  }

  /** Settling a list of distinct, not yet done transactions marks exactly
      as many of them "done" as the counter reports. */
  lemma {:induction false} ProcessCountsDone(l: Ledger, order: seq<TransactionId>)
    requires forall k :: 0 <= k < |order| ==> order[k] < |l.transactions|
    requires Distinct(order)
    requires forall k :: 0 <= k < |order| ==> l.transactions[order[k]].status != DONE
    ensures CountDone(Process(l, order).ledger.transactions) == CountDone(l.transactions) + Process(l, order).processed
    decreases |order|
  {
    if |order| > 0 {
      var t := order[0];
      match Settle(l, t)
      case Ok(next) =>
        CountDoneAfterUpdate(l.transactions, t, l.transactions[t].(status := DONE));
        assert forall k :: 0 <= k < |order[1..]| ==> order[1..][k] == order[k + 1] && order[k + 1] != t;
        ProcessCountsDone(next, order[1..]);
      case Err(_) =>
        ProcessCountsDone(l, order[1..]);
    }
  }

  /** Each run moves exactly `processed` transactions to "done", and a
      transaction already "done" is left exactly as it was: settlement
      happens at most once per transaction. */
  lemma PollSettlesAtMostOnce(l: Ledger)
    ensures CountDone(Poll(l).ledger.transactions) == CountDone(l.transactions) + Poll(l).processed
    ensures forall i :: 0 <= i < |l.transactions| && l.transactions[i].status == DONE ==>
      Poll(l).ledger.transactions[i] == l.transactions[i]
  {
    ProcessCountsDone(l, PendingOrder(l.transactions));
  }

  /** After a run the next run picks up exactly the transactions that were
      eligible and whose settlement failed or was skipped: a failure is
      retried, a success never is. */
  lemma NextPollRetriesFailures(l: Ledger)
    ensures forall i :: 0 <= i < |l.transactions| ==>
      (i in PendingOrder(Poll(l).ledger.transactions) <==>
       i in PendingOrder(l.transactions) && Poll(l).ledger.transactions[i] == l.transactions[i])
  {
  }

  /** While no eligible transaction's currency has a quote as of its creation
      time, a run changes nothing and reports zero. */
  lemma PollIdleWithoutRates(l: Ledger)
    requires forall i :: 0 <= i < |l.transactions| && Eligible(l.transactions[i].status) ==>
      l.transactions[i].currency < |l.currencies| &&
      LatestRate(l.rates, l.transactions[i].currency, l.transactions[i].created).None?
    ensures Poll(l) == PollResult(l, 0)
  {
    ProcessIdle(l, PendingOrder(l.transactions));
  }

  lemma {:induction false} ProcessIdle(l: Ledger, order: seq<TransactionId>)
    requires forall k :: 0 <= k < |order| ==> order[k] < |l.transactions|
    requires forall k :: 0 <= k < |order| ==> Settle(l, order[k]).Err?
    ensures Process(l, order) == PollResult(l, 0)
    decreases |order|
  {
    if |order| > 0 {
      ProcessIdle(l, order[1..]);
    }
  }
}
