/** The request handlers that feed the settlement engine and read its audit
    trail: the refill and transfer payloads, and the per-wallet history
    report with its CSV export. */
module Views {
  import opened Wrappers
  import opened Models
  import opened Tasks

  /** The `currency_use` value that denominates a transfer in the source
      wallet's currency; every other value selects the destination's. */
  const CURRENCY_USE_FROM: string := "FROM"

  /** The refill request for the wallet named in the URL: that wallet
      receives, in its own currency, and nobody pays. */
  function RefillPayload(id: WalletId, wallet: Wallet, amount: real): (d: TransactionData)
    ensures d.walletTo == id && d.walletFrom.None?
    ensures d.currency == wallet.currency
    ensures d.operation == REFILL && d.amount == amount
  {
    TransactionData(None, id, wallet.currency, amount, REFILL)
  }

  /** The transfer request between two named wallets, denominated in the
      source's currency exactly when `currencyUse` is "FROM". */
  function TransferPayload(fromId: WalletId, from: Wallet, toId: WalletId, to: Wallet, currencyUse: string, amount: real): (d: TransactionData)
    ensures d.walletFrom == Some(fromId) && d.walletTo == toId
    ensures currencyUse == CURRENCY_USE_FROM ==> d.currency == from.currency
    ensures currencyUse != CURRENCY_USE_FROM ==> d.currency == to.currency
    ensures d.operation == TRANSFER && d.amount == amount
  {
    TransactionData(Some(fromId), toId, if currencyUse == CURRENCY_USE_FROM then from.currency else to.currency, amount, TRANSFER)
  }

  /** The report filter: the wallet's own rows, not before `start` and not
      after `end` when those bounds are given. */
  predicate InReport(h: WalletHistory, wallet: WalletId, start: Option<Timestamp>, end: Option<Timestamp>) {
    && h.wallet == wallet
    && (start.Some? ==> h.operDate >= start.value)
    && (end.Some? ==> h.operDate <= end.value)
  }

  /** The positions of the history rows the report shows, in primary-key order. */
  function ReportIndices(hs: seq<WalletHistory>, wallet: WalletId, start: Option<Timestamp>, end: Option<Timestamp>): (r: seq<nat>)
    ensures forall k :: 0 <= k < |r| ==> r[k] < |hs| && InReport(hs[r[k]], wallet, start, end)
    ensures forall i :: 0 <= i < |hs| && InReport(hs[i], wallet, start, end) ==> i in r
    ensures forall a, b :: 0 <= a < b < |r| ==> r[a] < r[b]
  {
    if |hs| == 0 then []
    else
      var n := |hs| - 1;
      var prefix := ReportIndices(hs[..n], wallet, start, end);
      assert forall k :: 0 <= k < |prefix| ==> hs[..n][prefix[k]] == hs[prefix[k]];
      prefix + (if InReport(hs[n], wallet, start, end) then [n] else [])
  }

  /** One report line: the `values` of a history row joined with its operation. */
  datatype ReportRow = ReportRow(
    oper: OperationId,
    direction: Direction,
    partner: Option<WalletId>,
    partnerName: Option<string>,
    operDate: Timestamp,
    amount: int,
    usdAmount: Option<int>)

  function ReportRowOf(l: Ledger, h: WalletHistory): ReportRow {
    ReportRow(h.oper, h.direction, h.partner, h.partnerName, h.operDate, h.amount,
              if h.oper < |l.operations| then Some(l.operations[h.oper].usdAmount) else None)
  }

  const NO_TRANSACTIONS: string := "There are no transactions for this wallet."

  /** The report of one wallet over an optional period, refused with a
      validation error when it would be empty. */
  function ClientReport(l: Ledger, wallet: WalletId, start: Option<Timestamp>, end: Option<Timestamp>): (r: Result<seq<ReportRow>, string>)
    ensures r.Err? <==> forall i :: 0 <= i < |l.histories| ==> !InReport(l.histories[i], wallet, start, end)
    ensures r.Err? ==> r.error == NO_TRANSACTIONS
    ensures r.Ok? ==> r.value == RowsAt(l, ReportIndices(l.histories, wallet, start, end))
  {
    var idx := ReportIndices(l.histories, wallet, start, end);
    if |idx| == 0 then Err(NO_TRANSACTIONS)
    else
      assert InReport(l.histories[idx[0]], wallet, start, end);
      Ok(RowsAt(l, idx))
  }

  /** The report lines of the history rows at positions `idx`. */
  function RowsAt(l: Ledger, idx: seq<nat>): (rows: seq<ReportRow>)
    requires forall k :: 0 <= k < |idx| ==> idx[k] < |l.histories|
    ensures |rows| == |idx|
    ensures forall k :: 0 <= k < |idx| ==> rows[k] == ReportRowOf(l, l.histories[idx[k]])
  {
    seq(|idx|, k requires 0 <= k < |idx| => ReportRowOf(l, l.histories[idx[k]]))
  }

  /** A CSV field before it is rendered as text. */
  datatype Cell = Text(text: string) | Number(number: int) | Null

  /** The translated column titles of the first CSV line. */
  const REPORT_HEADER: seq<string> := ["ID операции", "Тип", "ID клиента", "Имя клиента", "Время", "Cумма в валюте", "Сумма в USD"]

  function DirectionText(d: Direction): string {
    if d == In then "IN" else "OUT"
  }

  function OptionalNumber(x: Option<int>): Cell {
    if x.Some? then Number(x.value) else Null
  }

  function OptionalText(x: Option<string>): Cell {
    if x.Some? then Text(x.value) else Null
  }

  /** The fields of one report line in the fixed column order: operation,
      type, partner id, partner name, time, amount, USD amount. */
  function RowCells(row: ReportRow): (cells: seq<Cell>)
    ensures |cells| == |REPORT_HEADER|
    ensures RowFromCells(cells) == Some(row)
  {
    [Number(row.oper), Text(DirectionText(row.direction)), OptionalNumber(row.partner),
     OptionalText(row.partnerName), Number(row.operDate), Number(row.amount), OptionalNumber(row.usdAmount)]
  }

  /** Reads back a field written by `OptionalNumber`. */
  function NumberOrNull(c: Cell): Option<Option<int>> {
    match c
    case Number(n) => Some(Some(n))
    case Null => Some(None)
    case Text(_) => None
  }

  /** Reads back a field written by `OptionalText`. */
  function TextOrNull(c: Cell): Option<Option<string>> {
    match c
    case Text(t) => Some(Some(t))
    case Null => Some(None)
    case Number(_) => None
  }

  /** Reads a report line back from its CSV fields. */
  function RowFromCells(cells: seq<Cell>): Option<ReportRow> {
    if |cells| != 7 then None
    else
      match (cells[0], cells[1], cells[4], cells[5])
      case (Number(oper), Text(kind), Number(date), Number(amount)) =>
        var direction := if kind == "IN" then Some(In) else if kind == "OUT" then Some(Out) else None;
        var partner := NumberOrNull(cells[2]);
        var partnerName := TextOrNull(cells[3]);
        var usd := NumberOrNull(cells[6]);
        if oper < 0 || direction.None? || partner.None? || partnerName.None? || usd.None? then None
        else if partner.value.Some? && partner.value.value < 0 then None
        else
          Some(ReportRow(oper, direction.value,
                         if partner.value.Some? then Some(partner.value.value as nat) else None,
                         partnerName.value, date, amount, usd.value))
      case _ => None
  }

  /** The CSV export: the header line, then one line per report row in report
      order; every line after the header reads back as its row. */
  function CsvTable(rows: seq<ReportRow>): (table: seq<seq<Cell>>)
    ensures |table| == |rows| + 1
    ensures table[0] == seq(|REPORT_HEADER|, k requires 0 <= k < |REPORT_HEADER| => Text(REPORT_HEADER[k]))
    ensures forall k :: 0 <= k < |rows| ==> |table[k + 1]| == |REPORT_HEADER| && RowFromCells(table[k + 1]) == Some(rows[k])
  {
    [seq(|REPORT_HEADER|, k requires 0 <= k < |REPORT_HEADER| => Text(REPORT_HEADER[k]))] +
    seq(|rows|, k requires 0 <= k < |rows| => RowCells(rows[k]))
  }
}
