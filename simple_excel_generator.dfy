/**
 * The simplified workbook: a five-row summary and the deposits, ATM and checks sheets, each only
 * when its list is non-empty. Amounts are written `$` followed by `toFixed(2)` of the signed value.
 */
module SimpleExcelGenerator {
  import opened Wrappers
  import opened Text
  import opened Money
  import opened Statement
  import opened Sheets

  /** The summary rows: the two account fields (`N/A` when missing) and the two balances (zero when missing). */
  function SummaryRows(info: AccountInfo): seq<Row> {
    [ [Text("Field"), Text("Value")],
      [Text("Account Number"), Text(OrElse(info.accountNumber, "N/A"))],
      [Text("Statement Date"), Text(OrElse(info.statementDate, "N/A"))],
      [Text("Beginning Balance"), Text(DollarFixed(OrZero(info.beginningBalance)))],
      [Text("Ending Balance"), Text(DollarFixed(OrZero(info.endingBalance)))] ]
  }

  /** A missing balance is written as a zero balance. */
  lemma SummaryDefaults(info: AccountInfo)
    ensures |SummaryRows(info)| == 5
    ensures info.beginningBalance.None? ==> SummaryRows(info)[3][1] == Text("$0.00")
    ensures info.endingBalance.None? ==> SummaryRows(info)[4][1] == Text("$0.00")
    ensures info.accountNumber.None? ==> SummaryRows(info)[1][1] == Text("N/A")
    ensures info.statementDate.None? ==> SummaryRows(info)[2][1] == Text("N/A")
  {
    DollarFixedZero();
  }

  /** An ATM withdrawal is written with its sign after the dollar sign: `$-20.00` for a $20 withdrawal. */
  lemma AtmAmountCell(w: Debit)
    ensures AtmCells(w)[3] == Text(DollarFixed(w.amount))
    ensures w.amount < 0 ==> AtmCells(w)[3].text[..2] == "$-"
    ensures w.amount == -2000 ==> AtmCells(w)[3] == Text("$-20.00")
  {
    DollarFixedSign(w.amount);
    if w.amount == -2000 {
      assert DecimalString(20) == "20" by {
        assert DecimalString(2) == "2";
      }
      assert Pad2(0) == "00";
    }
  }

  const DepositsHeader: Row := [Text("Date Credited"), Text("Description"), Text("Amount")]
  const AtmHeader: Row := [Text("Transaction Date"), Text("Date Posted"), Text("Description"), Text("Amount")]
  const ChecksHeader: Row := [Text("Date Paid"), Text("Check Number"), Text("Amount"), Text("Reference Number")]

  function DepositCells(d: Deposit): Row {
    [Text(d.dateCredited), Text(d.description), Text(DollarFixed(d.amount))]
  }

  function AtmCells(w: Debit): Row {
    [Text(w.tranDate), Text(w.datePosted), Text(w.description), Text(DollarFixed(w.amount))]
  }

  function CheckCells(c: Check): Row {
    [Text(c.datePaid), Text(c.checkNumber), Text(DollarFixed(c.amount)), Text(c.referenceNumber)]
  }

  function DepositsSheet(data: Record): Sheet {
    Sheet("Deposits", [DepositsHeader] + MapSeq(data.deposits, DepositCells))
  }

  function AtmSheet(data: Record): Sheet {
    Sheet("ATM Withdrawals", [AtmHeader] + MapSeq(data.atmWithdrawals, AtmCells))
  }

  function ChecksSheet(data: Record): Sheet {
    Sheet("Checks Paid", [ChecksHeader] + MapSeq(data.checksPaid, CheckCells))
  }

  function SimpleWorkbookOf(data: Record): seq<Sheet> {
    [Sheet("Account Summary", SummaryRows(data.accountInfo))]
    + Optional(|data.deposits| > 0, DepositsSheet(data))
    + Optional(|data.atmWithdrawals| > 0, AtmSheet(data))
    + Optional(|data.checksPaid| > 0, ChecksSheet(data))
  }

  /** `generateSimpleExcelFile` up to the last sheet appended. */
  method GenerateSimpleExcelFile(data: Record) returns (workbook: seq<Sheet>)
    ensures workbook == SimpleWorkbookOf(data)
  {
    var summaryData := SummaryRows(data.accountInfo);
    workbook := [Sheet("Account Summary", summaryData)];
    ghost var spec := workbook;
    if |data.deposits| > 0 {
      var depositsData := PushRows(DepositsHeader, data.deposits, DepositCells);
      workbook := workbook + [Sheet("Deposits", depositsData)];
    }
    spec := spec + Optional(|data.deposits| > 0, DepositsSheet(data));
    assert workbook == spec;
    if |data.atmWithdrawals| > 0 {
      var atmData := PushRows(AtmHeader, data.atmWithdrawals, AtmCells);
      workbook := workbook + [Sheet("ATM Withdrawals", atmData)];
    }
    spec := spec + Optional(|data.atmWithdrawals| > 0, AtmSheet(data));
    assert workbook == spec;
    if |data.checksPaid| > 0 {
      var checksData := PushRows(ChecksHeader, data.checksPaid, CheckCells);
      workbook := workbook + [Sheet("Checks Paid", checksData)];
    }
  }

  /**
   * The summary comes first, then the deposits, ATM and checks sheets whose lists are non-empty,
   * in that order; there is no card-purchase sheet and no combined sheet.
   */
  lemma SimpleWorkbookNames(data: Record)
    ensures Names(SimpleWorkbookOf(data)) == ["Account Summary"]
      + OptionalName(|data.deposits| > 0, "Deposits") + OptionalName(|data.atmWithdrawals| > 0, "ATM Withdrawals")
      + OptionalName(|data.checksPaid| > 0, "Checks Paid")
    ensures "Card Purchases" !in Names(SimpleWorkbookOf(data)) && "All Transactions" !in Names(SimpleWorkbookOf(data))
  {
    var s0 := [Sheet("Account Summary", SummaryRows(data.accountInfo))];
    var d := Optional(|data.deposits| > 0, DepositsSheet(data));
    var a := Optional(|data.atmWithdrawals| > 0, AtmSheet(data));
    var c := Optional(|data.checksPaid| > 0, ChecksSheet(data));
    NamesAppend(s0, d);
    NamesAppend(s0 + d, a);
    NamesAppend(s0 + d + a, c);
    NamesOptional(|data.deposits| > 0, DepositsSheet(data));
    NamesOptional(|data.atmWithdrawals| > 0, AtmSheet(data));
    NamesOptional(|data.checksPaid| > 0, ChecksSheet(data));
    assert Names(s0) == ["Account Summary"];
  }
}
