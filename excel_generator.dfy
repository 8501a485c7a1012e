/**
 * The multi-sheet workbook: an account summary, one sheet per non-empty transaction list, and
 * every transaction merged and sorted by date.
 */
module ExcelGenerator {
  import opened Wrappers
  import opened Text
  import opened Money
  import opened Statement
  import opened Sorting
  import opened Sheets

  /** `formatCurrency`: `$0.00` for a missing amount, otherwise the currency text of its magnitude, after a `-` when negative. */
  function FormatCurrency(amount: Option<int>): (r: string)
    ensures amount.None? ==> r == "$0.00"
    ensures |r| >= 5
  {
    match amount
    case None => "$0.00"
    case Some(a) =>
      var formatted := Usd(Abs(a));
      if a < 0 then "-" + formatted else formatted
  }

  /** A negative amount is a `-` before the text of its magnitude; no other amount starts with `-`. */
  lemma FormatCurrencySign(a: int)
    ensures a < 0 ==> FormatCurrency(Some(a)) == "-" + FormatCurrency(Some(-a))
    ensures a >= 0 ==> FormatCurrency(Some(a))[0] == '$'
    ensures FormatCurrency(Some(a))[0] == '-' <==> a < 0
  {
  }

  /** The text after the sign is `$`, whole units with thousands commas, a point and two cent digits, which read back as the magnitude. */
  lemma FormatCurrencyReadsBack(a: int)
    ensures var r := FormatCurrency(Some(a)); var u := if a < 0 then r[1..] else r;
      |u| >= 5 && u[0] == '$' && u[|u| - 3] == '.'
      && TokenCents(u[1..|u| - 3], u[|u| - 2..]) == Abs(a)
  {
    var g, p := Grouped(Abs(a) / 100), Pad2(Abs(a) % 100);
    var u := Usd(Abs(a));
    assert u[1..|u| - 3] == g && u[|u| - 2..] == p;
    UsdTokenValue(Abs(a));
  }

  // ---------------------------------------------------------------------------------------------
  // Sheets

  const SummaryName := "Account Summary"
  const DepositsName := "Deposits & Credits"
  const AtmName := "ATM Withdrawals"
  const ChecksName := "Checks Paid"
  const CardName := "Card Purchases"
  const AllName := "All Transactions"

  /** `createAccountSummarySheet`: the account fields, a blank row and the four counts. */
  function SummaryRows(data: Record): seq<Row> {
    var info := data.accountInfo;
    [ [Text("Field"), Text("Value")],
      [Text("Account Number"), Text(OrElse(info.accountNumber, "N/A"))],
      [Text("Statement Date"), Text(OrElse(info.statementDate, "N/A"))],
      [Text("Beginning Balance"), Text(FormatCurrency(info.beginningBalance))],
      [Text("Ending Balance"), Text(FormatCurrency(info.endingBalance))],
      [Text("")],
      [Text("Transaction Summary"), Text("")],
      [Text("Total Deposits"), Count(|data.deposits|)],
      [Text("Total ATM Withdrawals"), Count(|data.atmWithdrawals|)],
      [Text("Total Checks Paid"), Count(|data.checksPaid|)],
      [Text("Total Card Purchases"), Count(|data.visaPurchases|)] ]
  }

  /**
   * The summary shows `N/A` exactly for a missing or empty account number or date, and its four
   * counts add up to the number of transactions.
   */
  lemma SummaryFacts(data: Record)
    ensures var rows := SummaryRows(data);
      |rows| == 11
      && (rows[1][1] == Text("N/A") <==> data.accountInfo.accountNumber.None? || data.accountInfo.accountNumber.value in {"", "N/A"})
      && (rows[2][1] == Text("N/A") <==> data.accountInfo.statementDate.None? || data.accountInfo.statementDate.value in {"", "N/A"})
      && rows[7][1].count + rows[8][1].count + rows[9][1].count + rows[10][1].count == TransactionCount(data)
  {
  }

  const DepositsHeader: Row := [Text("Date Credited"), Text("Description"), Text("Amount")]
  const DebitHeader: Row := [Text("Transaction Date"), Text("Date Posted"), Text("Description"), Text("Amount")]
  const ChecksHeader: Row := [Text("Date Paid"), Text("Check Number"), Text("Amount"), Text("Reference Number")]
  const AllHeader: Row := [Text("Date"), Text("Type"), Text("Description"), Text("Amount")]

  function DepositCells(d: Deposit): Row {
    [Text(d.dateCredited), Text(d.description), Text(FormatCurrency(Some(d.amount)))]
  }

  /** An ATM withdrawal or a card purchase row; the two sheets are built alike. */
  function DebitCells(w: Debit): Row {
    [Text(w.tranDate), Text(w.datePosted), Text(w.description), Text(FormatCurrency(Some(w.amount)))]
  }

  function CheckCells(c: Check): Row {
    [Text(c.datePaid), Text(c.checkNumber), Text(FormatCurrency(Some(c.amount))), Text(c.referenceNumber)]
  }

  // ---------------------------------------------------------------------------------------------
  // All transactions

  datatype Transaction = Transaction(date: string, kind: string, description: string, amount: int)

  function DepositEntry(d: Deposit): Transaction {
    Transaction(d.dateCredited, "Deposit", d.description, d.amount)
  }

  /** ATM rows are dated by their transaction date, not their posting date. */
  function AtmEntry(w: Debit): Transaction {
    Transaction(w.tranDate, "ATM Withdrawal", w.description, w.amount)
  }

  /** A check enters the list as an outflow, described by its number. */
  function CheckEntry(c: Check): Transaction {
    Transaction(c.datePaid, "Check", "Check #" + c.checkNumber, -c.amount)
  }

  function CardEntry(v: Debit): Transaction {
    Transaction(v.tranDate, "Card Purchase", v.description, v.amount)
  }

  /** The transactions in the order they are pushed: deposits, ATM withdrawals, checks, card purchases. */
  function Merged(data: Record): seq<Transaction> {
    MapSeq(data.deposits, DepositEntry) + MapSeq(data.atmWithdrawals, AtmEntry)
    + MapSeq(data.checksPaid, CheckEntry) + MapSeq(data.visaPurchases, CardEntry)
  }

  /**
   * `a.date.localeCompare(b.date)` as the sort key, in code-unit order, which agrees with it on
   * dates written with digits and one separator.
   */
  function DateKey(t: Transaction): seq<int> {
    StringKey(t.date)
  }

  function TransactionCells(t: Transaction): Row {
    [Text(t.date), Text(t.kind), Text(t.description), Text(FormatCurrency(Some(t.amount)))]
  }

  function AllTransactionRows(data: Record): seq<Row> {
    [AllHeader] + MapSeq(SortBy(Merged(data), DateKey), TransactionCells)
  }

  /** `createAllTransactionsSheet`: gather the four lists, sort them by date, one row each. */
  method CreateAllTransactionRows(data: Record) returns (allData: seq<Row>)
    ensures allData == AllTransactionRows(data)
  {
    var allTransactions: seq<Transaction> := [];
    allTransactions := PushAll(allTransactions, data.deposits, DepositEntry);
    assert allTransactions == MapSeq(data.deposits, DepositEntry);
    allTransactions := PushAll(allTransactions, data.atmWithdrawals, AtmEntry);
    allTransactions := PushAll(allTransactions, data.checksPaid, CheckEntry);
    allTransactions := PushAll(allTransactions, data.visaPurchases, CardEntry);
    assert allTransactions == Merged(data);
    var sorted := SortBy(allTransactions, DateKey);
    allData := PushRows(AllHeader, sorted, TransactionCells);
  }

  /**
   * The combined list holds every transaction exactly once, in date order, with one row each under
   * the header.
   */
  lemma AllTransactionsSorted(data: Record)
    ensures var s := SortBy(Merged(data), DateKey);
      |AllTransactionRows(data)| == 1 + TransactionCount(data)
      && Sorted(s, DateKey) && multiset(s) == multiset(Merged(data))
  {
    SortBySorted(Merged(data), DateKey);
  }

  /**
   * Transactions on the same date keep the order they were gathered in: deposits, then ATM
   * withdrawals, then checks, then card purchases, each in list order.
   */
  lemma AllTransactionsTies(data: Record, date: string)
    ensures WithKey(SortBy(Merged(data), DateKey), DateKey, StringKey(date))
         == WithKey(Merged(data), DateKey, StringKey(date))
  {
    SortByStable(Merged(data), DateKey, StringKey(date));
  }

  /** Every check appears in the combined list as a `Check` row described `Check #<number>` with its amount negated. */
  lemma AllTransactionsChecks(data: Record, i: nat)
    requires i < |data.checksPaid|
    ensures var c := data.checksPaid[i];
      Transaction(c.datePaid, "Check", "Check #" + c.checkNumber, -c.amount) in SortBy(Merged(data), DateKey)
  {
    var m := Merged(data);
    var j := |data.deposits| + |data.atmWithdrawals| + i;
    assert m[j] == CheckEntry(data.checksPaid[i]);
    assert m[j] in multiset(m);
    assert m[j] in multiset(SortBy(m, DateKey));
  }

  // ---------------------------------------------------------------------------------------------
  // The workbook

  function DepositsSheet(data: Record): Sheet {
    Sheet(DepositsName, [DepositsHeader] + MapSeq(data.deposits, DepositCells))
  }

  function AtmSheet(data: Record): Sheet {
    Sheet(AtmName, [DebitHeader] + MapSeq(data.atmWithdrawals, DebitCells))
  }

  function ChecksSheet(data: Record): Sheet {
    Sheet(ChecksName, [ChecksHeader] + MapSeq(data.checksPaid, CheckCells))
  }

  function CardSheet(data: Record): Sheet {
    Sheet(CardName, [DebitHeader] + MapSeq(data.visaPurchases, DebitCells))
  }

  function WorkbookOf(data: Record): seq<Sheet> {
    [Sheet(SummaryName, SummaryRows(data))]
    + Optional(|data.deposits| > 0, DepositsSheet(data))
    + Optional(|data.atmWithdrawals| > 0, AtmSheet(data))
    + Optional(|data.checksPaid| > 0, ChecksSheet(data))
    + Optional(|data.visaPurchases| > 0, CardSheet(data))
    + [Sheet(AllName, AllTransactionRows(data))]
  }

  /** `generateExcelFile`: the sheets appended to the workbook, in order. */
  method GenerateExcelFile(data: Record) returns (workbook: seq<Sheet>)
    ensures workbook == WorkbookOf(data)
  {
    var summary := SummaryRows(data);
    workbook := [Sheet(SummaryName, summary)];
    ghost var spec := workbook;
    if |data.deposits| > 0 {
      var rows := PushRows(DepositsHeader, data.deposits, DepositCells);
      workbook := workbook + [Sheet(DepositsName, rows)];
    }
    spec := spec + Optional(|data.deposits| > 0, DepositsSheet(data));
    assert workbook == spec;
    if |data.atmWithdrawals| > 0 {
      var rows := PushRows(DebitHeader, data.atmWithdrawals, DebitCells);
      workbook := workbook + [Sheet(AtmName, rows)];
    }
    spec := spec + Optional(|data.atmWithdrawals| > 0, AtmSheet(data));
    assert workbook == spec;
    if |data.checksPaid| > 0 {
      var rows := PushRows(ChecksHeader, data.checksPaid, CheckCells);
      workbook := workbook + [Sheet(ChecksName, rows)];
    }
    spec := spec + Optional(|data.checksPaid| > 0, ChecksSheet(data));
    assert workbook == spec;
    if |data.visaPurchases| > 0 {
      var rows := PushRows(DebitHeader, data.visaPurchases, DebitCells);
      workbook := workbook + [Sheet(CardName, rows)];
    }
    spec := spec + Optional(|data.visaPurchases| > 0, CardSheet(data));
    assert workbook == spec;
    var all := CreateAllTransactionRows(data);
    workbook := workbook + [Sheet(AllName, all)];
  }

  /**
   * The workbook opens with the summary and closes with all transactions; between them come the
   * category sheets whose lists are non-empty, in the order deposits, ATM, checks, card.
   */
  lemma WorkbookNames(data: Record)
    ensures Names(WorkbookOf(data)) == [SummaryName]
      + OptionalName(|data.deposits| > 0, DepositsName) + OptionalName(|data.atmWithdrawals| > 0, AtmName)
      + OptionalName(|data.checksPaid| > 0, ChecksName) + OptionalName(|data.visaPurchases| > 0, CardName)
      + [AllName]
  {
    var s0 := [Sheet(SummaryName, SummaryRows(data))];
    var d := Optional(|data.deposits| > 0, DepositsSheet(data));
    var a := Optional(|data.atmWithdrawals| > 0, AtmSheet(data));
    var c := Optional(|data.checksPaid| > 0, ChecksSheet(data));
    var v := Optional(|data.visaPurchases| > 0, CardSheet(data));
    var z := [Sheet(AllName, AllTransactionRows(data))];
    NamesAppend(s0, d);
    NamesAppend(s0 + d, a);
    NamesAppend(s0 + d + a, c);
    NamesAppend(s0 + d + a + c, v);
    NamesAppend(s0 + d + a + c + v, z);
    NamesOptional(|data.deposits| > 0, DepositsSheet(data));
    NamesOptional(|data.atmWithdrawals| > 0, AtmSheet(data));
    NamesOptional(|data.checksPaid| > 0, ChecksSheet(data));
    NamesOptional(|data.visaPurchases| > 0, CardSheet(data));
    assert Names(s0) == [SummaryName];
    assert Names(z) == [AllName];
  }

  /** Each category sheet is its header and one row per item of its list, in list order. */
  lemma CategorySheetRows<T>(header: Row, items: seq<T>, toRow: T -> Row, i: nat)
    requires i < |items|
    ensures |[header] + MapSeq(items, toRow)| == 1 + |items|
    ensures ([header] + MapSeq(items, toRow))[i + 1] == toRow(items[i])
  {
  }
}
