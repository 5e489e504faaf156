/** The "as-of" exchange-rate lookup: the quote for a currency with the
    greatest `created` not later than a given moment. */
module Rates {
  import opened Wrappers
  import opened Models

  /** A rate that may be used for `currency` at time `at`. */
  predicate Qualifies(r: ExchangeRate, currency: CurrencyId, at: Timestamp) {
    r.currency == currency && r.created <= at
  }

  /** The latest qualifying rate (`filter(currency=…, created__lte=at)
      .order_by('-created').first()`).  Of two rates with the same `created`
      the earlier-inserted one is returned; the uniqueness constraint on
      (currency, created) makes that case impossible in a real store. */
  function LatestRate(rates: seq<ExchangeRate>, currency: CurrencyId, at: Timestamp): (r: Option<ExchangeRate>)
    ensures r.None? <==> forall i :: 0 <= i < |rates| ==> !Qualifies(rates[i], currency, at)
    ensures r.Some? ==> r.value in rates && Qualifies(r.value, currency, at)
    ensures r.Some? ==> forall i :: 0 <= i < |rates| && Qualifies(rates[i], currency, at) ==>
                          rates[i].created <= r.value.created
  {
    if |rates| == 0 then None
    else
      var rest := LatestRate(rates[1..], currency, at);
      assert forall i :: 1 <= i < |rates| ==> rates[i] == rates[1..][i - 1];
      if !Qualifies(rates[0], currency, at) then rest
      else if rest.Some? && rest.value.created > rates[0].created then rest
      else Some(rates[0])
  }

  /** Under the uniqueness constraint the lookup has exactly one possible
      answer: any qualifying rate that is at least as recent as every other
      qualifying rate is the one returned. */
  lemma LatestRateIsDetermined(rates: seq<ExchangeRate>, currency: CurrencyId, at: Timestamp, x: ExchangeRate)
    requires RatesUnique(rates)
    requires x in rates && Qualifies(x, currency, at)
    requires forall i :: 0 <= i < |rates| && Qualifies(rates[i], currency, at) ==> rates[i].created <= x.created
    ensures LatestRate(rates, currency, at) == Some(x)
  {
  }

  /** A quote appended for a (currency, moment) that no earlier quote has is
      what a lookup at that very moment returns. */
  lemma LatestRateOfFreshQuote(rates: seq<ExchangeRate>, x: ExchangeRate)
    requires forall i :: 0 <= i < |rates| ==> rates[i].currency != x.currency || rates[i].created != x.created
    ensures LatestRate(rates + [x], x.currency, x.created) == Some(x)
  {
    var all := rates + [x];
    assert all[|rates|] == x;
    var found := LatestRate(all, x.currency, x.created).value;
    var i :| 0 <= i < |all| && all[i] == found;
    assert i == |rates|;
  }

  /** Rates are append-only, so a lookup that succeeded keeps succeeding, and
      its answer is never older than before. */
  lemma {:induction false} LatestRateSurvivesAppend(rates: seq<ExchangeRate>, more: seq<ExchangeRate>, currency: CurrencyId, at: Timestamp)
    requires LatestRate(rates, currency, at).Some?
    ensures LatestRate(rates + more, currency, at).Some?
    ensures LatestRate(rates, currency, at).value.created <= LatestRate(rates + more, currency, at).value.created
  {
    var found := LatestRate(rates, currency, at).value;
    var i :| 0 <= i < |rates| && rates[i] == found;
    assert (rates + more)[i] == found;
  }

  /** Quotes dated after `at` never influence a lookup at `at`. */
  lemma {:induction false} LatestRateIgnoresLaterRates(rates: seq<ExchangeRate>, more: seq<ExchangeRate>, currency: CurrencyId, at: Timestamp)
    requires forall k :: 0 <= k < |more| ==> more[k].created > at
    ensures LatestRate(rates + more, currency, at) == LatestRate(rates, currency, at)
  {
    if |rates| == 0 {
      assert rates + more == more;
    } else {
      assert (rates + more)[1..] == rates[1..] + more;
      LatestRateIgnoresLaterRates(rates[1..], more, currency, at);
    }
  }
}
