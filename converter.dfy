/**
 * The converter page: the checks an uploaded file passes before it is processed, the page's
 * step and state, and the side-by-side CSV it builds from the extracted statement, in which each
 * category occupies its own block of columns and row `i` holds the `i`-th item of every list.
 */
module Converter {
  import opened Wrappers
  import opened Text
  import opened Money
  import opened Statement

  // ---------------------------------------------------------------------------------------------
  // The side-by-side CSV

  /** `x.amount ? '$' + x.amount.toFixed(2) : ''`: a zero amount leaves the cell empty. */
  function AmountCell(cents: int): (r: string)
    ensures r == "" <==> cents == 0
  {
    if cents == 0 then "" else DollarFixed(cents)
  }

  /** ATM and card amounts: the magnitude after the dollar sign, or nothing for zero. */
  function MagnitudeCell(cents: int): (r: string)
    ensures r == "" <==> cents == 0
  {
    if cents == 0 then "" else DollarFixed(Abs(cents))
  }

  /** The three deposit columns of row `i`: empty past the end of the list. */
  function DepositFields(ds: seq<Deposit>, i: nat): (r: seq<string>)
    ensures |r| == 3
  {
    if i < |ds| then [ds[i].description, ds[i].dateCredited, AmountCell(ds[i].amount)] else ["", "", ""]
  }

  /** The four columns of an ATM withdrawal or card purchase; the second date is the posting date. */
  function DebitFields(ws: seq<Debit>, i: nat): (r: seq<string>)
    ensures |r| == 4
  {
    if i < |ws| then [ws[i].description, ws[i].tranDate, ws[i].datePosted, MagnitudeCell(ws[i].amount)]
    else ["", "", "", ""]
  }

  function CheckFields(cs: seq<Check>, i: nat): (r: seq<string>)
    ensures |r| == 4
  {
    if i < |cs| then [cs[i].datePaid, cs[i].checkNumber, AmountCell(cs[i].amount), cs[i].referenceNumber]
    else ["", "", "", ""]
  }

  /** The account column pair of data row `i`: the statement date and the two balances, then nothing. */
  function SummaryFields(info: AccountInfo, i: nat): (r: seq<string>)
    ensures |r| == 3
  {
    if i == 0 then ["Statement Date", OrElse(info.statementDate, ""), ""]
    else if i == 1 then ["Beginning Balance", DollarFixed(OrZero(info.beginningBalance)), ""]
    else if i == 2 then ["Ending Balance", DollarFixed(OrZero(info.endingBalance)), ""]
    else ["", "", ""]
  }

  /** The fields of data row `i`, with an empty column between blocks. */
  function RowFields(data: Record, i: nat): (r: seq<string>)
    ensures |r| == 21
  {
    SummaryFields(data.accountInfo, i) + DepositFields(data.deposits, i) + [""]
    + DebitFields(data.atmWithdrawals, i) + [""] + CheckFields(data.checksPaid, i) + [""]
    + DebitFields(data.visaPurchases, i)
  }

  /** `headerRow.join(',')`, the 21 column titles written out with their commas. */
  const HeaderLine := "Account Summary,Value,," + "Description,Date Credited,Amount,,"
    + "Description,Tran Date,Date Paid,Amount,," + "Date Paid,Check Number,Amount,"
    + "Reference Number,," + "Description,Tran Date,Date Paid,Amount"

  /** `subHeaderRow.join(',')` after the account number: the four block titles at their columns. */
  const SubHeaderTail := ",,DEPOSITS & OTHER CREDITS,,,," + "ATM WITHDRAWALS & DEBITS,,,,," + "CHECKS PAID,,,,,"
    + "CARD PURCHASES,,,"

  function SubHeaderLine(info: AccountInfo): string {
    "Account Number," + OrElse(info.accountNumber, "") + SubHeaderTail
  }

  /** `Math.max` of the four list lengths. */
  function MaxTransactions(data: Record): (r: nat)
    ensures r >= |data.deposits| && r >= |data.atmWithdrawals| && r >= |data.checksPaid| && r >= |data.visaPurchases|
    ensures r == |data.deposits| || r == |data.atmWithdrawals| || r == |data.checksPaid| || r == |data.visaPurchases|
  {
    var a := if |data.deposits| >= |data.atmWithdrawals| then |data.deposits| else |data.atmWithdrawals|;
    var b := if |data.checksPaid| >= |data.visaPurchases| then |data.checksPaid| else |data.visaPurchases|;
    if a >= b then a else b
  }

  /** The number of data rows: three for the account fields, more when a list is longer. */
  function DataRows(data: Record): nat {
    if MaxTransactions(data) > 3 then MaxTransactions(data) else 3
  }

  function RowLine(data: Record, i: nat): string {
    Join(RowFields(data, i), ",")
  }

  /** The two header lines. */
  function HeadLines(data: Record): seq<string> {
    [HeaderLine, SubHeaderLine(data.accountInfo)]
  }

  /** Data row `j`'s line, as a function of `j`. */
  function RowLines(data: Record): nat -> string {
    (j: nat) => RowLine(data, j)
  }

  /** `head` with `row(0)`, ..., `row(n - 1)` pushed after it. */
  function Pushed(head: seq<string>, row: nat -> string, n: nat): seq<string>
    decreases n
  {
    if n == 0 then head else Pushed(head, row, n - 1) + [row(n - 1)]
  }

  lemma {:induction false} PushedLines(head: seq<string>, row: nat -> string, n: nat)
    ensures var lines := Pushed(head, row, n);
      && |lines| == |head| + n && lines[..|head|] == head
      && forall j :: 0 <= j < n ==> lines[|head| + j] == row(j)
    decreases n
  {
    if n > 0 {
      PushedLines(head, row, n - 1);
      var prev := Pushed(head, row, n - 1);
      assert Pushed(head, row, n) == prev + [row(n - 1)];
      assert (prev + [row(n - 1)])[..|head|] == prev[..|head|];
    }
  }

  /** The lines of the file: the two header lines, then one line per data row. */
  function CsvLines(data: Record): seq<string> {
    Pushed(HeadLines(data), RowLines(data), DataRows(data))
  }

  /** The file's lines: the two headers, then data row `i` on line `i + 2`. */
  lemma CsvLinesLayout(data: Record)
    ensures var r := CsvLines(data);
      && |r| == 2 + DataRows(data)
      && r[0] == HeaderLine && r[1] == SubHeaderLine(data.accountInfo)
      && forall i :: 0 <= i < DataRows(data) ==> r[i + 2] == RowLine(data, i)
  {
    var head, row := HeadLines(data), RowLines(data);
    PushedLines(head, row, DataRows(data));
    var r := CsvLines(data);
    assert |head| == 2;
    assert r[0] == r[..2][0] && r[1] == r[..2][1];
    forall i | 0 <= i < DataRows(data)
      ensures r[i + 2] == RowLine(data, i)
    {
      assert r[|head| + i] == row(i);
    }
  }

  /** The pushes written out before the loop: the two headers and the three account rows. */
  method PushFirstRows(data: Record) returns (csvLines: seq<string>)
    ensures csvLines == Pushed(HeadLines(data), RowLines(data), 3)
  {
    csvLines := [HeaderLine];
    csvLines := csvLines + [SubHeaderLine(data.accountInfo)];
    assert csvLines == HeadLines(data);
    csvLines := csvLines + [RowLine(data, 0)];
    csvLines := csvLines + [RowLine(data, 1)];
    csvLines := csvLines + [RowLine(data, 2)];
  }

  /** The `for` loop from row `start` while `i < maxTransactions`, each row given by `row`. */
  method PushRowsFrom(lines: seq<string>, head: seq<string>, row: nat -> string, start: nat, maxTransactions: nat)
    returns (csvLines: seq<string>)
    requires lines == Pushed(head, row, start)
    ensures csvLines == Pushed(head, row, if maxTransactions > start then maxTransactions else start)
  {
    csvLines := lines;
    var i := start;
    while i < maxTransactions
      invariant start <= i && (i <= maxTransactions || i == start)
      invariant csvLines == Pushed(head, row, i)
    {
      csvLines := csvLines + [row(i)];
      i := i + 1;
    }
  }

  /** `generateComprehensiveCSV`: the lines pushed one by one and joined with newlines. */
  method GenerateComprehensiveCsv(data: Record) returns (csv: string)
    ensures csv == Join(CsvLines(data), "\n")
  {
    var maxTransactions := MaxTransactions(data);
    var csvLines := PushFirstRows(data);
    csvLines := PushRowsFrom(csvLines, HeadLines(data), RowLines(data), 3, maxTransactions);
    csv := Join(csvLines, "\n");
  }

  // ---------------------------------------------------------------------------------------------
  // Properties of the CSV

  /** Five lines at least, and one more for every item beyond the third in the longest list. */
  lemma LineCount(data: Record)
    ensures |CsvLines(data)| == 5 + (if MaxTransactions(data) > 3 then MaxTransactions(data) - 3 else 0)
  {
    CsvLinesLayout(data);
  }

  /** Item `i` of each list sits in data row `i`, in its own block of columns. */
  lemma ItemPlacement(data: Record, i: nat)
    ensures var r := RowFields(data, i);
      && r[3..6] == DepositFields(data.deposits, i)
      && r[7..11] == DebitFields(data.atmWithdrawals, i)
      && r[12..16] == CheckFields(data.checksPaid, i)
      && r[17..21] == DebitFields(data.visaPurchases, i)
      && r[6] == "" && r[11] == "" && r[16] == ""
  {
    var s := SummaryFields(data.accountInfo, i);
    var d := DepositFields(data.deposits, i);
    var a := DebitFields(data.atmWithdrawals, i);
    var c := CheckFields(data.checksPaid, i);
    var v := DebitFields(data.visaPurchases, i);
    var r := RowFields(data, i);
    assert r == s + d + [""] + a + [""] + c + [""] + v;
    assert r[3..6] == d;
    assert r[7..11] == a;
    assert r[12..16] == c;
    assert r[17..21] == v;
  }

  /** A row past the end of a list leaves that list's columns empty. */
  lemma PastTheEnd(data: Record, i: nat)
    requires i >= |data.deposits| && i >= |data.atmWithdrawals| && i >= |data.checksPaid| && i >= |data.visaPurchases| && i >= 3
    ensures forall k :: 0 <= k < 21 ==> RowFields(data, i)[k] == ""
  {
  }

  /** ATM and card cells hold the magnitude, without a minus; a zero amount leaves the cell empty. */
  lemma MagnitudeCellSign(cents: int)
    ensures MagnitudeCell(cents) == MagnitudeCell(-cents)
    ensures cents != 0 ==> MagnitudeCell(cents)[0] == '$' && MagnitudeCell(cents)[1] != '-'
  {
    DollarFixedSign(Abs(cents));
  }

  /** The balance cells read `$0.00` when the balance is missing. */
  lemma BalanceDefaults(info: AccountInfo)
    ensures info.beginningBalance.None? ==> SummaryFields(info, 1)[1] == "$0.00"
    ensures info.endingBalance.None? ==> SummaryFields(info, 2)[1] == "$0.00"
  {
    DollarFixedZero();
  }

  /** No character of a formatted amount is a comma or a newline. */
  lemma DollarFixedPlain(cents: int)
    ensures ',' !in DollarFixed(cents) && '\n' !in DollarFixed(cents)
  {
    var d := DecimalString(Abs(cents) / 100);
    var p := Pad2(Abs(cents) % 100);
    var r := DollarFixed(cents);
    assert r == "$" + (if cents < 0 then "-" else "") + d + "." + p;
    forall k | 0 <= k < |r|
      ensures r[k] != ',' && r[k] != '\n'
    {
      var s := if cents < 0 then "-" else "";
      if k > |s| && k < 1 + |s| + |d| {
        assert r[k] == d[k - 1 - |s|];
        assert IsDigit(d[k - 1 - |s|]);
      } else if k > 1 + |s| + |d| {
        assert r[k] == p[k - 2 - |s| - |d|];
      }
    }
  }

  predicate Plain(s: string) {
    ',' !in s && '\n' !in s
  }

  /** Every text field of the statement is free of commas and newlines. */
  predicate PlainRecord(data: Record) {
    && (data.accountInfo.accountNumber.Some? ==> Plain(data.accountInfo.accountNumber.value))
    && (data.accountInfo.statementDate.Some? ==> Plain(data.accountInfo.statementDate.value))
    && (forall d :: d in data.deposits ==> Plain(d.description) && Plain(d.dateCredited))
    && (forall w :: w in data.atmWithdrawals ==> Plain(w.description) && Plain(w.tranDate) && Plain(w.datePosted))
    && (forall c :: c in data.checksPaid ==> Plain(c.datePaid) && Plain(c.checkNumber) && Plain(c.referenceNumber))
    && (forall v :: v in data.visaPurchases ==> Plain(v.description) && Plain(v.tranDate) && Plain(v.datePosted))
  }

  /** Every field of the list is free of commas and newlines. */
  predicate AllPlain(fs: seq<string>) {
    forall k :: 0 <= k < |fs| ==> Plain(fs[k])
  }

  lemma AllPlainAppend(a: seq<string>, b: seq<string>)
    requires AllPlain(a) && AllPlain(b)
    ensures AllPlain(a + b)
  {
    forall k | 0 <= k < |a + b|
      ensures Plain((a + b)[k])
    {
      if k >= |a| {
        assert (a + b)[k] == b[k - |a|];
      }
    }
  }

  lemma SummaryLabelsPlain()
    ensures Plain("Statement Date") && Plain("Beginning Balance") && Plain("Ending Balance") && Plain("")
  {
  }

  lemma SummaryFieldsPlain(info: AccountInfo, i: nat)
    requires info.statementDate.Some? ==> Plain(info.statementDate.value)
    ensures AllPlain(SummaryFields(info, i))
  {
    DollarFixedPlain(OrZero(info.beginningBalance));
    DollarFixedPlain(OrZero(info.endingBalance));
    SummaryLabelsPlain();
  }

  lemma DepositFieldsPlain(ds: seq<Deposit>, i: nat)
    requires forall d :: d in ds ==> Plain(d.description) && Plain(d.dateCredited)
    ensures AllPlain(DepositFields(ds, i))
  {
    if i < |ds| {
      DollarFixedPlain(ds[i].amount);
      assert ds[i] in ds;
    }
  }

  lemma DebitFieldsPlain(ws: seq<Debit>, i: nat)
    requires forall w :: w in ws ==> Plain(w.description) && Plain(w.tranDate) && Plain(w.datePosted)
    ensures AllPlain(DebitFields(ws, i))
  {
    if i < |ws| {
      DollarFixedPlain(Abs(ws[i].amount));
      assert ws[i] in ws;
    }
  }

  lemma CheckFieldsPlain(cs: seq<Check>, i: nat)
    requires forall c :: c in cs ==> Plain(c.datePaid) && Plain(c.checkNumber) && Plain(c.referenceNumber)
    ensures AllPlain(CheckFields(cs, i))
  {
    if i < |cs| {
      DollarFixedPlain(cs[i].amount);
      assert cs[i] in cs;
    }
  }

  lemma RowFieldsPlain(data: Record, i: nat)
    requires PlainRecord(data)
    ensures AllPlain(RowFields(data, i))
  {
    var s := SummaryFields(data.accountInfo, i);
    var d := DepositFields(data.deposits, i);
    var a := DebitFields(data.atmWithdrawals, i);
    var c := CheckFields(data.checksPaid, i);
    var v := DebitFields(data.visaPurchases, i);
    SummaryFieldsPlain(data.accountInfo, i);
    DepositFieldsPlain(data.deposits, i);
    DebitFieldsPlain(data.atmWithdrawals, i);
    CheckFieldsPlain(data.checksPaid, i);
    DebitFieldsPlain(data.visaPurchases, i);
    assert AllPlain([""]);
    AllPlainAppend(s, d);
    AllPlainAppend(s + d, [""]);
    AllPlainAppend(s + d + [""], a);
    AllPlainAppend(s + d + [""] + a, [""]);
    AllPlainAppend(s + d + [""] + a + [""], c);
    AllPlainAppend(s + d + [""] + a + [""] + c, [""]);
    AllPlainAppend(s + d + [""] + a + [""] + c + [""], v);
  }

  /**
   * Fields are joined without quoting, so a row splits back into its 21 fields exactly when no
   * field holds a comma; with no newline inside a field, the file splits back into its lines,
   * and the last line is a data row, not an empty string.
   */
  lemma CsvSplits(data: Record, i: nat)
    requires PlainRecord(data)
    ensures Split(RowLine(data, i), ',') == RowFields(data, i)
    ensures |Split(RowLine(data, i), ',')| == 21
  {
    RowFieldsPlain(data, i);
    SplitJoin(RowFields(data, i), ',');
  }

  /** A separator-free join of separator-free parts holds no such character. */
  lemma {:induction false} JoinAvoids(parts: seq<string>, sep: string, c: char)
    requires c !in sep
    requires forall k :: 0 <= k < |parts| ==> c !in parts[k]
    ensures c !in Join(parts, sep)
    decreases |parts|
  {
    if |parts| > 1 {
      JoinAvoids(parts[1..], sep, c);
    }
  }

  predicate NoNewline(s: string) {
    forall k :: 0 <= k < |s| ==> s[k] != '\n'
  }

  // The column titles, a few at a time: each piece is checked character by character.

  lemma SummaryDepositTitlesPlain()
    ensures NoNewline("Account Summary,Value,,") && NoNewline("Description,Date Credited,Amount,,")
  {
  }

  lemma AtmTitlesPlain()
    ensures NoNewline("Description,Tran Date,Date Paid,Amount,,")
  {
  }

  lemma CheckTitlesPlain()
    ensures NoNewline("Date Paid,Check Number,Amount,") && NoNewline("Reference Number,,")
  {
  }

  lemma CardTitlesPlain()
    ensures NoNewline("Description,Tran Date,Date Paid,Amount")
  {
  }

  lemma SubHeaderFrontPlain()
    ensures NoNewline(",,DEPOSITS & OTHER CREDITS,,,,") && NoNewline("ATM WITHDRAWALS & DEBITS,,,,,")
  {
  }

  lemma SubHeaderBackPlain()
    ensures NoNewline("CHECKS PAID,,,,,") && NoNewline("CARD PURCHASES,,,") && NoNewline("Account Number,")
  {
  }

  lemma HeaderLinePlain()
    ensures '\n' !in HeaderLine
  {
    SummaryDepositTitlesPlain();
    AtmTitlesPlain();
    CheckTitlesPlain();
    CardTitlesPlain();
  }

  lemma SubHeaderLinePlain(info: AccountInfo)
    requires info.accountNumber.Some? ==> Plain(info.accountNumber.value)
    ensures '\n' !in SubHeaderLine(info)
  {
    SubHeaderFrontPlain();
    SubHeaderBackPlain();
  }

  lemma RowLinePlain(data: Record, i: nat)
    requires PlainRecord(data)
    ensures '\n' !in RowLine(data, i)
  {
    RowFieldsPlain(data, i);
    JoinAvoids(RowFields(data, i), ",", '\n');
  }

  /** The file splits back at its newlines into its lines: there is no newline after the last one. */
  lemma CsvFileSplits(data: Record)
    requires PlainRecord(data)
    ensures Split(Join(CsvLines(data), "\n"), '\n') == CsvLines(data)
  {
    var ls := CsvLines(data);
    CsvLinesLayout(data);
    HeaderLinePlain();
    SubHeaderLinePlain(data.accountInfo);
    forall k | 0 <= k < |ls|
      ensures '\n' !in ls[k]
    {
      if k >= 2 {
        RowLinePlain(data, k - 2);
      }
    }
    SplitJoin(ls, '\n');
  }

  // ---------------------------------------------------------------------------------------------
  // The page

  datatype Step = Upload | Processing | Results | Error

  /** The uploaded `File`: its name, MIME type and size in bytes. */
  datatype UploadFile = UploadFile(name: string, mimeType: string, size: nat)

  /** The fields of the signed-in user the page reads. */
  datatype User = User(subscriptionTier: string, pagesRemaining: nat, pagesLimit: nat)

  /** The answer of the anonymous-limit check. */
  datatype AnonymousData = AnonymousData(canConvert: bool, conversionsUsed: nat)

  /** Whether an upload goes ahead, or the message of the toast that refuses it. */
  datatype UploadDecision = Accept | Reject(message: string)

  const MaxUploadSize: nat := 10 * 1024 * 1024

  /** `anonymousData?.can_convert`: no answer counts as not allowed. */
  predicate CanConvertAnonymously(anonymousData: Option<AnonymousData>) {
    anonymousData.Some? && anonymousData.value.canConvert
  }

  /**
   * The checks `handleFileUpload` makes, in order: the type, the size, then the quota. `pageCheck`
   * is the `can_convert` of what `checkPages(1)` answered (`None` when there was no answer); only a
   * signed-in user with a loaded user record is asked, and a signed-in user without one is let through.
   */
  function UploadCheck(file: UploadFile, isAnonymous: bool, anonymousData: Option<AnonymousData>,
                       user: Option<User>, pageCheck: Option<bool>): (r: UploadDecision)
    ensures r.Accept? <==>
      && file.mimeType == "application/pdf" && file.size <= MaxUploadSize
      && (isAnonymous ==> CanConvertAnonymously(anonymousData))
      && (!isAnonymous && user.Some? ==> pageCheck == Some(true))
  {
    if file.mimeType != "application/pdf" then Reject("Please upload a PDF file only.")
    else if file.size > MaxUploadSize then Reject("File size must be under 10MB.")
    else if isAnonymous then
      if CanConvertAnonymously(anonymousData) then Accept
      else Reject("Free conversion limit reached. Please sign up for unlimited conversions.")
    else if user.Some? && pageCheck != Some(true) then Reject("Insufficient pages remaining. Please upgrade your plan.")
    else Accept
  }

  /**
   * The type is checked before the size, and both before the quota: a file of the wrong type is
   * refused for its type whatever its size and whatever the quota says.
   */
  lemma UploadCheckOrder(file: UploadFile, isAnonymous: bool, anonymousData: Option<AnonymousData>,
                         user: Option<User>, pageCheck: Option<bool>)
    ensures file.mimeType != "application/pdf" ==>
      UploadCheck(file, isAnonymous, anonymousData, user, pageCheck) == Reject("Please upload a PDF file only.")
    ensures file.mimeType == "application/pdf" && file.size > MaxUploadSize ==>
      UploadCheck(file, isAnonymous, anonymousData, user, pageCheck) == Reject("File size must be under 10MB.")
    ensures file.mimeType == "application/pdf" && file.size <= MaxUploadSize && isAnonymous && !CanConvertAnonymously(anonymousData) ==>
      UploadCheck(file, isAnonymous, anonymousData, user, pageCheck)
        == Reject("Free conversion limit reached. Please sign up for unlimited conversions.")
    ensures file.mimeType == "application/pdf" && file.size <= MaxUploadSize && !isAnonymous && user.Some? && pageCheck != Some(true) ==>
      UploadCheck(file, isAnonymous, anonymousData, user, pageCheck) == Reject("Insufficient pages remaining. Please upgrade your plan.")
  {
    var r := UploadCheck(file, isAnonymous, anonymousData, user, pageCheck);
    if file.mimeType != "application/pdf" {
      assert r == Reject("Please upload a PDF file only.");
    } else if file.size > MaxUploadSize {
      assert r == Reject("File size must be under 10MB.");
    } else if isAnonymous {
      assert !CanConvertAnonymously(anonymousData) ==>
        r == Reject("Free conversion limit reached. Please sign up for unlimited conversions.");
    } else {
      assert user.Some? && pageCheck != Some(true) ==> r == Reject("Insufficient pages remaining. Please upgrade your plan.");
    }
  }

  /** Ten megabytes exactly is accepted; one byte more is refused. */
  lemma UploadSizeBoundary(name: string)
    ensures UploadCheck(UploadFile(name, "application/pdf", 10485760), false, None, None, None).Accept?
    ensures UploadCheck(UploadFile(name, "application/pdf", 10485761), false, None, None, None) == Reject("File size must be under 10MB.")
  {
  }

  /** The response of the conversion request, as far as the page reads it. */
  datatype Response =
    | ErrorResponse(detail: Option<string>)
    | OkResponse(success: bool, data: Option<Record>, pagesProcessed: nat, pagesUsed: nat)

  /** What `processFile` makes of the response: the extracted record, or the message of the error it throws. */
  function ProcessOutcome(response: Response): (r: Result<Record, string>)
    ensures r.Success? <==> response.OkResponse? && response.success && response.data.Some?
    ensures r.Success? ==> r.value == response.data.value
    ensures response.ErrorResponse? ==> r.error == OrElse(response.detail, "Failed to process PDF")
    ensures response.OkResponse? && r.Failure? ==> r.error == "Invalid response from AI processing"
  {
    match response
    case ErrorResponse(detail) => Failure(OrElse(detail, "Failed to process PDF"))
    case OkResponse(success, data, _, _) =>
      if !success || data.None? then Failure("Invalid response from AI processing") else Success(data.value)
  }

  /** `result.pages_processed || result.pages_used || 1`, with a missing count given as 0. */
  function PagesUsedOf(pagesProcessed: nat, pagesUsed: nat): (r: nat)
    ensures r >= 1
    ensures r == pagesProcessed || r == pagesUsed || r == 1
    ensures pagesProcessed >= 1 ==> r == pagesProcessed
  {
    if pagesProcessed != 0 then pagesProcessed else if pagesUsed != 0 then pagesUsed else 1
  }

  /** The banner line about the remaining quota. */
  function FormatPagesDisplay(isAnonymous: bool, anonymousData: Option<AnonymousData>, user: Option<User>): string {
    if isAnonymous then
      if CanConvertAnonymously(anonymousData) then "You have 1 free conversion available!"
      else "Free conversion used - Sign up for unlimited access"
    else if user.None? then ""
    else if user.value.subscriptionTier == "enterprise" then "Unlimited pages available"
    else if user.value.subscriptionTier == "daily_free" then
      DecimalString(user.value.pagesRemaining) + " of 7 pages remaining today"
    else
      DecimalString(user.value.pagesRemaining) + " of " + DecimalString(user.value.pagesLimit) + " pages remaining this month"
  }

  /** A numeral followed by a space: the first space is the one after the digits, which read back as the number. */
  lemma NumeralThenSpace(n: nat, tail: string)
    requires |tail| > 0 && tail[0] == ' '
    ensures var r := DecimalString(n) + tail;
      && IndexOf(r, " ") == Some(|DecimalString(n)|)
      && DigitsValue(r[..|DecimalString(n)|]) == n
  {
    var d := DecimalString(n);
    assert ' ' !in d by {
      forall k | 0 <= k < |d|
        ensures d[k] != ' '
      {
        assert IsDigit(d[k]);
      }
    }
    assert d + tail == d + [' '] + tail[1..];
    IndexOfAfterPrefix(d, ' ', tail[1..]);
    assert (d + tail)[..|d|] == d;
    DecimalRoundTrip(n);
  }

  /** A daily user's line starts with the pages remaining, which read back up to the first space, and is about 7 pages a day. */
  lemma PagesDisplayDaily(u: User)
    requires u.subscriptionTier == "daily_free"
    ensures var r := FormatPagesDisplay(false, None, Some(u));
      && IndexOf(r, " ").Some?
      && DigitsValue(r[..IndexOf(r, " ").value]) == u.pagesRemaining
      && r[IndexOf(r, " ").value..] == " of 7 pages remaining today"
  {
    var d := DecimalString(u.pagesRemaining);
    var tail := " of 7 pages remaining today";
    NumeralThenSpace(u.pagesRemaining, tail);
    assert (d + tail)[|d|..] == tail;
  }

  /** On a monthly tier the line starts with the pages remaining and ends by naming the month. */
  lemma PagesDisplayMonthly(u: User)
    requires u.subscriptionTier != "daily_free" && u.subscriptionTier != "enterprise"
    ensures var r := FormatPagesDisplay(false, None, Some(u));
      && IndexOf(r, " ").Some?
      && DigitsValue(r[..IndexOf(r, " ").value]) == u.pagesRemaining
      && |r| >= 27 && r[|r| - 27..] == " pages remaining this month"
  {
    var d := DecimalString(u.pagesRemaining);
    var tail := " pages remaining this month";
    var x := d + " of " + DecimalString(u.pagesLimit);
    assert x + tail == d + (" of " + DecimalString(u.pagesLimit) + tail);
    NumeralThenSpace(u.pagesRemaining, " of " + DecimalString(u.pagesLimit) + tail);
    assert (x + tail)[|x|..] == tail;
  }

  /** An anonymous visitor is told only whether the one free conversion is left. */
  lemma PagesDisplayAnonymous(anonymousData: Option<AnonymousData>, user: Option<User>)
    ensures CanConvertAnonymously(anonymousData) ==> FormatPagesDisplay(true, anonymousData, user) == "You have 1 free conversion available!"
    ensures !CanConvertAnonymously(anonymousData) ==> FormatPagesDisplay(true, anonymousData, user) == "Free conversion used - Sign up for unlimited access"
  {
  }

  /** The converter page's state. */
  class ConverterPage {
    var step: Step
    var uploadedFile: Option<UploadFile>
    var extractedData: Option<Record>
    var excelFile: Option<string>
    var error: Option<string>
    var pagesUsed: nat
    var isAnonymous: bool
    var anonymousData: Option<AnonymousData>
    var user: Option<User>

    /** What each step needs: a file while processing, a record and its CSV on the results step, a message on the error step. */
    predicate Consistent()
      reads this
    {
      && (step == Processing || step == Results ==> uploadedFile.Some?)
      && (step == Results ==> extractedData.Some? && excelFile.Some?)
      && (step == Error ==> error.Some?)
    }

    /**
     * The page once mounted: at the upload step with nothing loaded; a visitor who is not signed in
     * is anonymous, and `anonymousData` is the answer of the anonymous-limit check, if any.
     */
    constructor (isAuthenticated: bool, anonymousData: Option<AnonymousData>, user: Option<User>)
      ensures step == Upload && uploadedFile.None? && extractedData.None? && excelFile.None? && error.None?
      ensures pagesUsed == 0 && isAnonymous == !isAuthenticated
      ensures this.anonymousData == (if isAuthenticated then None else anonymousData) && this.user == user
      ensures Consistent()
    {
      step := Upload;
      uploadedFile := None;
      extractedData := None;
      excelFile := None;
      error := None;
      pagesUsed := 0;
      isAnonymous := !isAuthenticated;
      this.anonymousData := if isAuthenticated then None else anonymousData;
      this.user := user;
    }

    /**
     * `handleFileUpload`: a file that passes the checks is taken and the page moves to processing;
     * a refused file leaves the page as it was.
     */
    method HandleFileUpload(file: UploadFile, pageCheck: Option<bool>) returns (decision: UploadDecision)
      requires Consistent()
      modifies this
      ensures decision == UploadCheck(file, isAnonymous, anonymousData, user, pageCheck)
      ensures decision.Accept? ==> (step == Processing && uploadedFile == Some(file)
        && extractedData == old(extractedData) && excelFile == old(excelFile) && error == old(error)
        && pagesUsed == old(pagesUsed))
      ensures decision.Reject? ==> step == old(step) && uploadedFile == old(uploadedFile)
      ensures isAnonymous == old(isAnonymous) && anonymousData == old(anonymousData) && user == old(user)
      ensures decision.Reject? ==> unchanged(this)
      ensures Consistent()
    {
      decision := UploadCheck(file, isAnonymous, anonymousData, user, pageCheck);
      if decision.Accept? {
        uploadedFile := Some(file);
        step := Processing;
      }
    }

    /**
     * `processFile` after the request: on success the record, its CSV and the page count are kept,
     * an anonymous visitor's free conversion is spent, a signed-in user's record is replaced by
     * `refreshed`, and the page shows the results; otherwise the page shows the error.
     */
    method CompleteProcessing(response: Response, refreshed: Option<User>)
      requires Consistent() && step == Processing
      modifies this
      ensures ProcessOutcome(response).Success? ==>
        && step == Results && extractedData == Some(ProcessOutcome(response).value)
        && excelFile == Some(Join(CsvLines(ProcessOutcome(response).value), "\n"))
        && pagesUsed == PagesUsedOf(response.pagesProcessed, response.pagesUsed)
        && error == old(error)
        && anonymousData == (if isAnonymous then Some(AnonymousData(false, 1)) else old(anonymousData))
        && user == (if isAnonymous then old(user) else refreshed)
      ensures ProcessOutcome(response).Failure? ==>
        && step == Error && error == Some(ProcessOutcome(response).error)
        && extractedData == old(extractedData) && excelFile == old(excelFile) && pagesUsed == old(pagesUsed)
        && anonymousData == old(anonymousData) && user == old(user)
      ensures uploadedFile == old(uploadedFile) && isAnonymous == old(isAnonymous)
      ensures Consistent()
    {
      var outcome := ProcessOutcome(response);
      if outcome.Failure? {
        error := Some(outcome.error);
        step := Error;
        return;
      }
      ShowResults(outcome.value, PagesUsedOf(response.pagesProcessed, response.pagesUsed), refreshed);
    }

    /** The success path of `processFile`: the record, its CSV and the page count kept, and the results shown. */
    method ShowResults(data: Record, used: nat, refreshed: Option<User>)
      requires uploadedFile.Some?
      modifies this
      ensures step == Results && extractedData == Some(data)
      ensures excelFile == Some(Join(CsvLines(data), "\n")) && pagesUsed == used && error == old(error)
      ensures anonymousData == (if isAnonymous then Some(AnonymousData(false, 1)) else old(anonymousData))
      ensures user == (if isAnonymous then old(user) else refreshed)
      ensures uploadedFile == old(uploadedFile) && isAnonymous == old(isAnonymous)
      ensures Consistent()
    {
      extractedData := Some(data);
      pagesUsed := used;
      var csvContent := GenerateComprehensiveCsv(data);
      excelFile := Some(csvContent);
      if isAnonymous {
        anonymousData := Some(AnonymousData(false, 1));
      } else {
        user := refreshed;
      }
      step := Results;
    }

    /** `handleReset`: back to the upload step with the file, the record, the CSV and the error cleared. */
    method HandleReset()
      modifies this
      ensures step == Upload && uploadedFile.None? && extractedData.None? && excelFile.None? && error.None?
      ensures pagesUsed == 0
      ensures isAnonymous == old(isAnonymous) && anonymousData == old(anonymousData) && user == old(user)
      ensures Consistent()
    {
      step := Upload;
      uploadedFile := None;
      extractedData := None;
      excelFile := None;
      error := None;
      pagesUsed := 0;
    }
  }
}
