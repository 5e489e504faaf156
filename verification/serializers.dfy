/** The serializers in front of wallet and exchange-rate creation: how a
    currency given as text is resolved, and what a created wallet or quote
    looks like. */
module Serializers {
  import opened Wrappers
  import opened Models
  import opened Rates

  datatype SerializerError =
    | ValidationError(message: string)
    | NotUnique                // a uniqueness constraint refused the row
    | MultipleObjectsReturned  // `get` found several currencies with the code

  const FIELD_REQUIRED: string := "This field is required."
  const NO_SUCH_PK: string := "No currency with such Pk."
  const NO_SUCH_ISO: string := "No currency with such ISO code."

  /** Non-empty and made of decimal digits only. */
  predicate IsDigits(s: string) {
    |s| > 0 && forall i :: 0 <= i < |s| ==> '0' <= s[i] <= '9'
  }

  /** The number a string of decimal digits denotes (leading zeros allowed). */
  function DigitsValue(s: string): nat
    requires forall i :: 0 <= i < |s| ==> '0' <= s[i] <= '9'
  {
    if |s| == 0 then 0
    else 10 * DigitsValue(s[..|s| - 1]) + (s[|s| - 1] as int - '0' as int)
  }

  /** The decimal numeral of `n`, without leading zeros. */
  function Numeral(n: nat): string {
    if n < 10 then [('0' as int + n) as char]
    else Numeral(n / 10) + [('0' as int + n % 10) as char]
  }

  /** A numeral reads back as the number it was written from. */
  lemma {:induction false} NumeralRoundTrip(n: nat)
    ensures IsDigits(Numeral(n))
    ensures DigitsValue(Numeral(n)) == n
  {
    if n >= 10 {
      NumeralRoundTrip(n / 10);
      var s := Numeral(n);
      assert s[..|s| - 1] == Numeral(n / 10);
    }
  }

  /** The positions below `n` of the currencies whose ISO code is `code`. */
  function CodeMatches(cs: seq<Currency>, code: string, n: nat): (r: seq<CurrencyId>)
    requires n <= |cs|
    ensures forall k :: 0 <= k < |r| ==> r[k] < n && cs[r[k]].code == code
    ensures forall i :: 0 <= i < n && cs[i].code == code ==> i in r
    ensures forall a, b :: 0 <= a < b < |r| ==> r[a] < r[b]
  {
    if n == 0 then []
    else CodeMatches(cs, code, n - 1) + (if cs[n - 1].code == code then [n - 1] else [])
  }

  /** `validate_currency`, shared by the wallet and the exchange-rate
      serializers: an all-digit value is a primary key and only a primary
      key; anything else is an ISO code, which must name exactly one
      currency. */
  function ResolveCurrency(cs: seq<Currency>, data: string): (r: Result<CurrencyId, SerializerError>)
    ensures data == "" ==> r == Err(ValidationError(FIELD_REQUIRED))
    ensures r.Ok? ==> r.value < |cs|
    ensures IsDigits(data) ==> (r.Ok? <==> DigitsValue(data) < |cs|)
    ensures IsDigits(data) && r.Ok? ==> r.value == DigitsValue(data)
    ensures IsDigits(data) && r.Err? ==> r.error == ValidationError(NO_SUCH_PK)
    ensures data != "" && !IsDigits(data) ==>
      && (r.Ok? ==> cs[r.value].code == data)
      && (r.Ok? <==> |CodeMatches(cs, data, |cs|)| == 1)
      && (r == Err(ValidationError(NO_SUCH_ISO)) <==> forall i :: 0 <= i < |cs| ==> cs[i].code != data)
      && (r == Err(MultipleObjectsReturned) <==> |CodeMatches(cs, data, |cs|)| > 1)
  {
    if data == "" then Err(ValidationError(FIELD_REQUIRED))
    else if IsDigits(data) then
      var pk := DigitsValue(data);
      if pk < |cs| then Ok(pk) else Err(ValidationError(NO_SUCH_PK))
    else
      var found := CodeMatches(cs, data, |cs|);
      assert |found| > 0 ==> cs[found[0]].code == data;
      if |found| == 0 then Err(ValidationError(NO_SUCH_ISO))
      else if |found| > 1 then Err(MultipleObjectsReturned)
      else Ok(found[0])
  }

  /** Every existing currency can be named by its primary key written in decimal. */
  lemma PrimaryKeyResolves(cs: seq<Currency>, id: CurrencyId)
    requires id < |cs|
    ensures ResolveCurrency(cs, Numeral(id)) == Ok(id)
  {
    NumeralRoundTrip(id);
  }

  /** A character Python's `str.isspace` accepts: the ASCII separators and
      controls 9-13 and 28-31, and the Unicode space characters. */
  predicate IsSpace(c: char) {
    || c == ' ' || ('\t' <= c <= '\r') || ('\U{1C}' <= c <= '\U{1F}')
    || c == '\U{85}' || c == '\U{A0}' || c == '\U{1680}'
    || ('\U{2000}' <= c <= '\U{200A}') || c == '\U{2028}' || c == '\U{2029}'
    || c == '\U{202F}' || c == '\U{205F}' || c == '\U{3000}'
  }

  predicate AllSpace(s: string) {
    forall k :: 0 <= k < |s| ==> IsSpace(s[k])
  }

  /** How many whitespace characters `s` starts with. */
  function LeadingSpaces(s: string): (n: nat)
    ensures n <= |s|
    ensures forall k :: 0 <= k < n ==> IsSpace(s[k])
    ensures n < |s| ==> !IsSpace(s[n])
  {
    if |s| > 0 && IsSpace(s[0]) then 1 + LeadingSpaces(s[1..]) else 0
  }

  /** How many whitespace characters `s` ends with. */
  function TrailingSpaces(s: string): (n: nat)
    ensures n <= |s|
    ensures forall k :: |s| - n <= k < |s| ==> IsSpace(s[k])
    ensures n < |s| ==> !IsSpace(s[|s| - 1 - n])
  {
    if |s| > 0 && IsSpace(s[|s| - 1]) then
      var n := TrailingSpaces(s[..|s| - 1]);
      assert forall k :: |s| - 1 - n <= k < |s| - 1 ==> s[k] == s[..|s| - 1][k];
      1 + n
    else 0
  }

  /** `str.strip()`, which a text field applies to its input: the longest
      middle part of `s` that neither starts nor ends with whitespace. */
  function Strip(s: string): (r: string)
    ensures r == "" <==> AllSpace(s)
    ensures |r| > 0 ==> !IsSpace(r[0]) && !IsSpace(r[|r| - 1])
  {
    var t := s[LeadingSpaces(s)..];
    assert forall k :: 0 <= k < |t| ==> t[k] == s[LeadingSpaces(s) + k];
    t[..|t| - TrailingSpaces(t)]
  }

  /** `s` has no surrounding whitespace. */
  predicate Trimmed(s: string) {
    |s| == 0 || (!IsSpace(s[0]) && !IsSpace(s[|s| - 1]))
  }

  /** Stripping removes exactly the surrounding whitespace: text that has none
      is kept as it is, and whitespace added around text is removed again. */
  lemma StripPadding(pre: string, s: string, post: string)
    requires AllSpace(pre) && AllSpace(post) && Trimmed(s)
    ensures Strip(pre + s + post) == s
  {
    var x := pre + s + post;
    if s == "" {
      assert forall k :: 0 <= k < |x| ==> IsSpace(x[k]) by {
        forall k | 0 <= k < |x| ensures IsSpace(x[k]) {
          if k < |pre| { assert x[k] == pre[k]; } else { assert x[k] == post[k - |pre|]; }
        }
      }
    } else {
      assert x == pre + (s + post);
      LeadingOfPadded(pre, s + post);
      assert x[|pre|..] == s + post;
      TrailingOfPadded(s, post);
    }
  }

  lemma {:induction false} LeadingOfPadded(pre: string, s: string)
    requires AllSpace(pre) && |s| > 0 && !IsSpace(s[0])
    ensures LeadingSpaces(pre + s) == |pre|
    decreases |pre|
  {
    if |pre| > 0 {
      assert (pre + s)[1..] == pre[1..] + s;
      LeadingOfPadded(pre[1..], s);
    } else {
      assert pre + s == s;
    }
  }

  lemma {:induction false} TrailingOfPadded(s: string, post: string)
    requires AllSpace(post) && |s| > 0 && !IsSpace(s[|s| - 1])
    ensures TrailingSpaces(s + post) == |post|
    decreases |post|
  {
    if |post| > 0 {
      assert (s + post)[..|s + post| - 1] == s + post[..|post| - 1];
      TrailingOfPadded(s, post[..|post| - 1]);
    } else {
      assert s + post == s;
    }
  }

  const BLANK: string := "This field may not be blank."

  /** A text field of a model serializer: surrounding whitespace is removed,
      and text that is empty afterwards is refused. */
  function TextField(data: string): (r: Result<string, SerializerError>)
    ensures r.Err? <==> AllSpace(data)
    ensures r.Err? ==> r.error == ValidationError(BLANK)
    ensures r.Ok? ==> r.value == Strip(data) && r.value != "" && Trimmed(r.value)
  {
    var t := Strip(data);
    if t == "" then Err(ValidationError(BLANK)) else Ok(t)
  }

  /** A wallet registration: every text field is stripped and must not be
      blank, the stripped name must be new, the stripped currency resolves as
      above, and the balance, which the serializer does not accept, starts
      at its default of 0. */
  function CreateWallet(l: Ledger, name: string, city: string, country: string, currency: string, now: Timestamp): (r: Result<Ledger, SerializerError>)
    ensures r.Ok? <==>
      && TextField(name).Ok? && TextField(city).Ok? && TextField(country).Ok? && TextField(currency).Ok?
      && (forall i :: 0 <= i < |l.wallets| ==> l.wallets[i].name != TextField(name).value)
      && ResolveCurrency(l.currencies, TextField(currency).value).Ok?
    ensures TextField(name).Err? ==> r == Err(ValidationError(BLANK))
    ensures TextField(name).Ok? && (exists i :: 0 <= i < |l.wallets| && l.wallets[i].name == TextField(name).value) ==>
      r == Err(NotUnique)
    ensures r.Ok? ==>
      && r.value.(wallets := l.wallets) == l
      && |r.value.wallets| == |l.wallets| + 1
      && r.value.wallets[..|l.wallets|] == l.wallets
      && var w := r.value.wallets[|l.wallets|];
      && w.name == TextField(name).value && w.city == TextField(city).value
      && w.country == TextField(country).value && w.created == now
      && w.currency == ResolveCurrency(l.currencies, TextField(currency).value).value
      && w.balance == 0
    ensures r.Ok? && BalancesNonNegative(l.wallets) ==> BalancesNonNegative(r.value.wallets)
    ensures r.Ok? && WalletNamesUnique(l.wallets) ==> WalletNamesUnique(r.value.wallets)
  {
    var n :- TextField(name);
    if exists i :: 0 <= i < |l.wallets| && l.wallets[i].name == n then Err(NotUnique)
    else
      var ci :- TextField(city);
      var co :- TextField(country);
      var cur :- TextField(currency);
      var c :- ResolveCurrency(l.currencies, cur);
      Ok(AddWallet(l, Wallet(n, ci, co, now, 0, c)))
  }

  /** Appends a wallet whose name is not taken yet. */
  function AddWallet(l: Ledger, w: Wallet): (r: Ledger)
    requires w.balance == 0
    requires forall i :: 0 <= i < |l.wallets| ==> l.wallets[i].name != w.name
    ensures r.(wallets := l.wallets) == l
    ensures |r.wallets| == |l.wallets| + 1 && r.wallets[..|l.wallets|] == l.wallets && r.wallets[|l.wallets|] == w
    ensures BalancesNonNegative(l.wallets) ==> BalancesNonNegative(r.wallets)
    ensures WalletNamesUnique(l.wallets) ==> WalletNamesUnique(r.wallets)
  {
    l.(wallets := l.wallets + [w])
  }

  /** A new quote: the stripped currency text must not be blank and resolves
      as above, and (currency, created) must not be taken yet. */
  function CreateRate(l: Ledger, currency: string, rate: real, created: Timestamp): (r: Result<Ledger, SerializerError>)
    ensures AllSpace(currency) ==> r == Err(ValidationError(BLANK))
    ensures r.Ok? <==>
      && !AllSpace(currency)
      && ResolveCurrency(l.currencies, Strip(currency)).Ok?
      && forall i :: 0 <= i < |l.rates| ==>
           l.rates[i].currency != ResolveCurrency(l.currencies, Strip(currency)).value || l.rates[i].created != created
    ensures r.Ok? ==>
      && r.value.(rates := l.rates) == l
      && r.value.rates == l.rates + [ExchangeRate(ResolveCurrency(l.currencies, Strip(currency)).value, rate, created)]
    ensures r.Ok? && RatesUnique(l.rates) ==> RatesUnique(r.value.rates)
  {
    var cur :- TextField(currency);
    var c :- ResolveCurrency(l.currencies, cur);
    if exists i :: 0 <= i < |l.rates| && l.rates[i].currency == c && l.rates[i].created == created then Err(NotUnique)
    else Ok(l.(rates := l.rates + [ExchangeRate(c, rate, created)]))
  }

  /** Whitespace around a text field changes nothing: padded text is read
      as the text itself, so a padded primary key or ISO code names the same
      currency. */
  lemma PaddedTextIsRead(pre: string, text: string, post: string)
    requires AllSpace(pre) && AllSpace(post) && Trimmed(text) && text != ""
    ensures TextField(pre + text + post) == Ok(text)
  {
    StripPadding(pre, text, post);
  }

  /** A quote just accepted is the one every lookup at its own moment uses. */
  lemma NewRateGovernsItsMoment(l: Ledger, currency: string, rate: real, created: Timestamp)
    requires CreateRate(l, currency, rate, created).Ok?
    ensures
      var c := ResolveCurrency(l.currencies, Strip(currency)).value;
      LatestRate(CreateRate(l, currency, rate, created).value.rates, c, created) == Some(ExchangeRate(c, rate, created))
  {
    var c := ResolveCurrency(l.currencies, Strip(currency)).value;
    var rates := CreateRate(l, currency, rate, created).value.rates;
    var x := ExchangeRate(c, rate, created);
    assert rates == l.rates + [x];
    assert forall i :: 0 <= i < |l.rates| ==> l.rates[i].currency != c || l.rates[i].created != created;
    assert rates[|l.rates|] == x;
    LatestRateOfFreshQuote(l.rates, x);
  }
}
