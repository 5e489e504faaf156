/** The persistent entities of the payment system and the in-memory ledger
    that stands in for the database.  Every table is a sequence in primary-key
    order, and a row's primary key is its position in that sequence. */
module Models {
  import opened Wrappers

  type CurrencyId = nat
  type WalletId = nat
  type OperationId = nat
  type TransactionId = nat

  /** Timestamps (`DateTimeField`) as integers on one common clock. */
  type Timestamp = int

  /** A currency: display name, ISO code and the minor-unit multiplier
      (`fractional`, e.g. 100 for cents).  The ISO code is not unique. */
  datatype Currency = Currency(name: string, code: string, fractional: int)

  /** A client wallet.  `balance` is in the wallet currency's minor units. */
  datatype Wallet = Wallet(
    name: string,
    city: string,
    country: string,
    created: Timestamp,
    balance: int,
    currency: CurrencyId)

  /** A quote: `rate` units of `currency` per one USD, valid from `created`. */
  datatype ExchangeRate = ExchangeRate(currency: CurrencyId, rate: real, created: Timestamp)

  /** The audit anchor of one settled transaction. */
  datatype Operation = Operation(
    currency: CurrencyId,
    operation: string,
    operAmount: int,   // amount in the transaction currency's minor units
    usdAmount: int,    // amount in US cents
    created: Timestamp)

  datatype Direction = In | Out

  /** One wallet's view of one operation.  `amount` is the magnitude; the
      direction carries the sign. */
  datatype WalletHistory = WalletHistory(
    wallet: WalletId,
    partner: Option<WalletId>,
    partnerName: Option<string>,
    oper: OperationId,
    operDate: Timestamp,
    direction: Direction,
    amount: int)

  /** A queued request to move money.  `wallet_from` is nullable (a refill has
      none), `wallet_to` is required.  `status` is free text. */
  datatype Transaction = Transaction(
    walletFrom: Option<WalletId>,
    walletTo: WalletId,
    operation: string,
    currency: CurrencyId,
    status: string,
    amount: real,
    created: Timestamp)

  /** The whole database. */
  datatype Ledger = Ledger(
    currencies: seq<Currency>,
    rates: seq<ExchangeRate>,
    wallets: seq<Wallet>,
    transactions: seq<Transaction>,
    operations: seq<Operation>,
    histories: seq<WalletHistory>)

  const REFILL: string := "REFILL"
  const TRANSFER: string := "TRANSFER"

  const START: string := "start"
  const DONE: string := "done"

  /** The status a freshly created transaction has (a `CharField` without a default). */
  const NEW_STATUS: string := ""

  /** The settlement loop picks up every transaction whose status is neither
      "start" nor "done". */
  predicate Eligible(status: string) {
    status != START && status != DONE
  }

  /** The balance invariant the settlement engine keeps. */
  ghost predicate BalancesNonNegative(ws: seq<Wallet>) {
    forall i :: 0 <= i < |ws| ==> ws[i].balance >= 0
  }

  /** `unique_together = ("currency", "created")` on exchange rates. */
  ghost predicate RatesUnique(rates: seq<ExchangeRate>) {
    forall i, j :: 0 <= i < j < |rates| ==>
      rates[i].currency != rates[j].currency || rates[i].created != rates[j].created
  }

  /** `unique=True` on wallet names. */
  ghost predicate WalletNamesUnique(ws: seq<Wallet>) {
    forall i, j :: 0 <= i < j < |ws| ==> ws[i].name != ws[j].name
  }

  /** The signed amount a history row stands for: positive for IN, negative for OUT. */
  function SignedAmount(h: WalletHistory): int {
    if h.direction == In then h.amount else -h.amount
  }
}
