/**
 * The earlier results panel, which downloads the whole statement as one sectioned CSV file: the
 * account summary, one section per non-empty transaction list and a combined list sorted by date.
 */
module LegacyResults {
  import opened Wrappers
  import opened Text
  import opened Money
  import opened Statement
  import opened Sheets
  import opened Sorting
  import opened Csv
  import opened ExcelGenerator
  import Results

  // ---------------------------------------------------------------------------------------------
  // Fields and lines

  /** The combined list's amount: `$x.xx` when not negative, `-$x.xx` with the magnitude otherwise. */
  function Signed(cents: int): (r: string)
    ensures |r| >= 5
  {
    ToFixed2Sign(Abs(cents));
    if cents >= 0 then DollarFixed(cents) else "-" + DollarFixed(Abs(cents))
  }

  /** A text between double quotes, copied as it is: a quote inside it is not doubled. */
  function Quoted(s: string): (r: string)
    ensures |r| == |s| + 2 && r[0] == '"' && r[|r| - 1] == '"' && r[1..|r| - 1] == s
  {
    "\"" + s + "\""
  }

  function DepositLine(d: Deposit): string {
    Quoted(d.description) + "," + d.dateCredited + "," + DollarFixed(d.amount)
  }

  /** ATM withdrawals and card purchases print the magnitude of their amount. */
  function DebitLine(w: Debit): string {
    Quoted(w.description) + "," + w.tranDate + "," + w.datePosted + "," + DollarFixed(Abs(w.amount))
  }

  function CheckLine(c: Check): string {
    c.datePaid + "," + c.checkNumber + "," + DollarFixed(c.amount) + "," + c.referenceNumber
  }

  function TransactionLine(t: Transaction): string {
    t.date + "," + t.kind + "," + Quoted(t.description) + "," + Signed(t.amount)
  }

  // ---------------------------------------------------------------------------------------------
  // The file

  const Heading := "BANK STATEMENT DATA EXTRACTION"
  const SummaryTitle := "ACCOUNT SUMMARY"
  const DepositsTitle := "DEPOSITS & OTHER CREDITS"
  const AtmTitle := "ATM WITHDRAWALS & DEBITS"
  const ChecksTitle := "CHECKS PAID"
  const CardTitle := "CARD PURCHASES"
  const AllTitle := "ALL TRANSACTIONS SUMMARY"
  const DepositsColumns := "Description,Date Credited,Amount"
  const DebitColumns := "Description,Transaction Date,Date Posted,Amount"
  const ChecksColumns := "Date Paid,Check Number,Amount,Reference Number"
  const AllColumns := "Date,Type,Description,Amount"

  /** The heading and the account summary; a missing field reads `Not found`, a missing balance zero. */
  function SummaryLines(info: AccountInfo): (r: seq<string>)
    ensures |r| == 9
  {
    [Heading, "", SummaryTitle] + SummaryFields(info) + [""]
  }

  function SummaryFields(info: AccountInfo): (r: seq<string>)
    ensures |r| == 5
  {
    [ "Field,Value",
      "Account Number," + OrElse(info.accountNumber, "Not found"),
      "Statement Date," + OrElse(info.statementDate, "Not found"),
      "Beginning Balance," + DollarFixed(OrZero(info.beginningBalance)),
      "Ending Balance," + DollarFixed(OrZero(info.endingBalance)) ]
  }

  /** A titled section with its column line and a blank line after it, or nothing for an empty list. */
  function Section(title: string, columns: string, lines: seq<string>): seq<string> {
    if |lines| == 0 then [] else [title, columns] + lines + [""]
  }

  function DepositsSection(data: Record): seq<string> {
    Section(DepositsTitle, DepositsColumns, MapSeq(data.deposits, DepositLine))
  }

  function AtmSection(data: Record): seq<string> {
    Section(AtmTitle, DebitColumns, MapSeq(data.atmWithdrawals, DebitLine))
  }

  function ChecksSection(data: Record): seq<string> {
    Section(ChecksTitle, ChecksColumns, MapSeq(data.checksPaid, CheckLine))
  }

  function CardSection(data: Record): seq<string> {
    Section(CardTitle, DebitColumns, MapSeq(data.visaPurchases, DebitLine))
  }

  /** The four category sections, in the order they are written. */
  function CategoryLines(data: Record): seq<string> {
    DepositsSection(data) + AtmSection(data) + ChecksSection(data) + CardSection(data)
  }

  /** The combined list in date order, one line per transaction. */
  function CombinedLines(data: Record): seq<string> {
    MapSeq(SortBy(Merged(data), DateKey), TransactionLine)
  }

  function CsvLines(data: Record): seq<string> {
    SummaryLines(data.accountInfo) + CategoryLines(data) + ([AllTitle, AllColumns] + CombinedLines(data))
  }

  datatype Download = Download(name: string, csv: string)

  /** A section's text: its title, its column line, its lines and a blank line, when it has lines. */
  lemma SectionText(title: string, columns: string, lines: seq<string>)
    ensures |lines| > 0 ==> Unlines(Section(title, columns, lines)) == Line(title) + Line(columns) + Unlines(lines) + Line("")
    ensures |lines| == 0 ==> Unlines(Section(title, columns, lines)) == ""
  {
    if |lines| > 0 {
      var head := [title, columns];
      UnlinesPair(title, columns);
      UnlinesAppend(head, lines);
      UnlinesSnoc(head + lines, "");
      assert Section(title, columns, lines) == (head + lines) + [""];
    }
  }

  /** `if (list.length > 0) { title; columns; list.forEach(...); blank line }`. */
  method AppendSection<T>(csv: string, title: string, columns: string, items: seq<T>, line: T -> string)
    returns (r: string)
    ensures r == csv + Unlines(Section(title, columns, MapSeq(items, line)))
  {
    r := csv;
    if |items| > 0 {
      r := r + Line(title) + Line(columns);
      r := AppendLines(r, items, line);
      r := r + Line("");
    }
    SectionText(title, columns, MapSeq(items, line));
  }

  /** The four category sections of `handleDownload`, appended in turn. */
  method AppendCategories(csv: string, data: Record) returns (r: string)
    ensures r == csv + Unlines(CategoryLines(data))
  {
    var d, a, c, v := DepositsSection(data), AtmSection(data), ChecksSection(data), CardSection(data);
    r := AppendSection(csv, DepositsTitle, DepositsColumns, data.deposits, DepositLine);
    assert r == csv + Unlines(d);
    r := AppendSection(r, AtmTitle, DebitColumns, data.atmWithdrawals, DebitLine);
    ExtendUnlines(csv, d, a);
    r := AppendSection(r, ChecksTitle, ChecksColumns, data.checksPaid, CheckLine);
    ExtendUnlines(csv, d + a, c);
    r := AppendSection(r, CardTitle, DebitColumns, data.visaPurchases, DebitLine);
    ExtendUnlines(csv, d + a + c, v);
  }

  /** The combined section of `handleDownload`: its title and columns, then every transaction in date order. */
  method AppendCombined(csv: string, data: Record) returns (r: string)
    ensures r == csv + Unlines([AllTitle, AllColumns] + CombinedLines(data))
  {
    r := csv + Line(AllTitle) + Line(AllColumns);
    UnlinesPair(AllTitle, AllColumns);
    assert r == csv + Unlines([AllTitle, AllColumns]);
    var allTransactions: seq<Transaction> := [];
    allTransactions := PushAll(allTransactions, data.deposits, DepositEntry);
    assert allTransactions == MapSeq(data.deposits, DepositEntry);
    allTransactions := PushAll(allTransactions, data.atmWithdrawals, AtmEntry);
    allTransactions := PushAll(allTransactions, data.checksPaid, CheckEntry);
    allTransactions := PushAll(allTransactions, data.visaPurchases, CardEntry);
    assert allTransactions == Merged(data);
    var sorted := SortBy(allTransactions, DateKey);
    r := AppendLines(r, sorted, TransactionLine);
    ExtendUnlines(csv, [AllTitle, AllColumns], CombinedLines(data));
  }

  /**
   * `handleDownload`: with no extracted data nothing is built; otherwise the sections are appended
   * in turn and the file is offered as `<name>-complete-data.csv`.
   */
  method HandleDownload(extractedData: Option<Record>, filename: Option<string>) returns (r: Option<Download>)
    ensures extractedData.None? ==> r.None?
    ensures extractedData.Some? ==>
      r == Some(Download(Results.OriginalName(filename, "bank-statement") + "-complete-data.csv",
                         Unlines(CsvLines(extractedData.value))))
  {
    if extractedData.None? {
      return None;
    }
    var data := extractedData.value;
    var originalName := Results.OriginalName(filename, "bank-statement");
    var csvData := Unlines(SummaryLines(data.accountInfo));
    csvData := AppendCategories(csvData, data);
    UnlinesAppend(SummaryLines(data.accountInfo), CategoryLines(data));
    csvData := AppendCombined(csvData, data);
    UnlinesAppend(SummaryLines(data.accountInfo) + CategoryLines(data), [AllTitle, AllColumns] + CombinedLines(data));
    r := Some(Download(originalName + "-complete-data.csv", csvData));
  }

  // ---------------------------------------------------------------------------------------------
  // Properties of the file

  /** The summary opens the file, whatever the rest holds. */
  lemma SummaryFirst(data: Record)
    ensures CsvLines(data)[..9] == SummaryLines(data.accountInfo)
  {
    PrefixOf(SummaryLines(data.accountInfo), CategoryLines(data), [AllTitle, AllColumns] + CombinedLines(data));
  }

  /** A missing account field reads `Not found` and a missing balance `$0.00`. */
  lemma SummaryDefaults(info: AccountInfo)
    ensures var f := SummaryFields(info);
      && (info.accountNumber.None? ==> f[1] == "Account Number,Not found")
      && (info.statementDate.None? ==> f[2] == "Statement Date,Not found")
      && (info.beginningBalance.None? ==> f[3] == "Beginning Balance,$0.00")
      && (info.endingBalance.None? ==> f[4] == "Ending Balance,$0.00")
  {
    DollarFixedZero();
  }

  /** A line with no comma in it, as only the titles are. */
  predicate IsTitle(l: string) {
    l != "" && ',' !in l
  }

  /** The title lines, in order. */
  function Titles(ls: seq<string>): (r: seq<string>)
    ensures |r| <= |ls|
  {
    if ls == [] then [] else (if IsTitle(ls[0]) then [ls[0]] else []) + Titles(ls[1..])
  }

  lemma {:induction false} TitlesAppend(a: seq<string>, b: seq<string>)
    ensures Titles(a + b) == Titles(a) + Titles(b)
    decreases |a|
  {
    if a == [] {
      assert a + b == b;
    } else {
      var head := if IsTitle(a[0]) then [a[0]] else [];
      assert (a + b)[0] == a[0];
      assert (a + b)[1..] == a[1..] + b;
      assert Titles(a + b) == head + Titles(a[1..] + b);
      TitlesAppend(a[1..], b);
    }
  }

  lemma {:induction false} TitlesNone(ls: seq<string>)
    requires forall i :: 0 <= i < |ls| ==> ',' in ls[i]
    ensures Titles(ls) == []
    decreases |ls|
  {
    if ls != [] {
      TitlesNone(ls[1..]);
    }
  }

  lemma TitlesPair(a: string, b: string)
    requires IsTitle(a) && !IsTitle(b)
    ensures Titles([a, b]) == [a]
  {
    assert [a, b][1..] == [b];
    assert [b][1..] == [];
  }

  lemma HeadingTitles()
    ensures IsTitle(Heading) && IsTitle(SummaryTitle) && IsTitle(AllTitle)
  {
    assert forall i :: 0 <= i < |Heading| ==> Heading[i] != ',';
    assert forall i :: 0 <= i < |SummaryTitle| ==> SummaryTitle[i] != ',';
    assert forall i :: 0 <= i < |AllTitle| ==> AllTitle[i] != ',';
  }

  lemma SectionTitleConstants()
    ensures IsTitle(DepositsTitle) && IsTitle(AtmTitle) && IsTitle(ChecksTitle) && IsTitle(CardTitle)
  {
    assert forall i :: 0 <= i < |DepositsTitle| ==> DepositsTitle[i] != ',';
    assert forall i :: 0 <= i < |AtmTitle| ==> AtmTitle[i] != ',';
    assert forall i :: 0 <= i < |ChecksTitle| ==> ChecksTitle[i] != ',';
    assert forall i :: 0 <= i < |CardTitle| ==> CardTitle[i] != ',';
  }

  /** The banner lines are titles; the column lines are not. */
  lemma TitleConstants()
    ensures IsTitle(Heading) && IsTitle(SummaryTitle) && IsTitle(AllTitle)
    ensures IsTitle(DepositsTitle) && IsTitle(AtmTitle) && IsTitle(ChecksTitle) && IsTitle(CardTitle)
    ensures !IsTitle(DepositsColumns) && !IsTitle(DebitColumns) && !IsTitle(ChecksColumns) && !IsTitle(AllColumns)
  {
    HeadingTitles();
    SectionTitleConstants();
    assert DepositsColumns[11] == ',' && DebitColumns[11] == ',' && ChecksColumns[9] == ',' && AllColumns[4] == ',';
  }

  /** A section lists its title and no other, and only when its list is non-empty. */
  lemma SectionTitles(title: string, columns: string, lines: seq<string>)
    requires IsTitle(title) && !IsTitle(columns)
    requires forall i :: 0 <= i < |lines| ==> ',' in lines[i]
    ensures Titles(Section(title, columns, lines)) == (if |lines| > 0 then [title] else [])
  {
    if |lines| > 0 {
      TitlesAppend([title, columns] + lines, [""]);
      TitlesAppend([title, columns], lines);
      TitlesNone(lines);
      TitlesPair(title, columns);
      assert [""][1..] == [];
    }
  }

  /** Every line written for a list item holds a comma. */
  lemma ItemLinesHaveCommas<T>(items: seq<T>, line: T -> string)
    requires forall x :: ',' in line(x)
    ensures forall i :: 0 <= i < |MapSeq(items, line)| ==> ',' in MapSeq(items, line)[i]
  {
  }

  lemma LinesHaveCommas()
    ensures forall d: Deposit :: ',' in DepositLine(d)
    ensures forall w: Debit :: ',' in DebitLine(w)
    ensures forall c: Check :: ',' in CheckLine(c)
    ensures forall t: Transaction :: ',' in TransactionLine(t)
  {
    forall d: Deposit ensures ',' in DepositLine(d) {
      assert DepositLine(d)[|d.description| + 2] == ',';
    }
    forall w: Debit ensures ',' in DebitLine(w) {
      assert DebitLine(w)[|w.description| + 2] == ',';
    }
    forall c: Check ensures ',' in CheckLine(c) {
      assert CheckLine(c)[|c.datePaid|] == ',';
    }
    forall t: Transaction ensures ',' in TransactionLine(t) {
      assert TransactionLine(t)[|t.date|] == ',';
    }
  }

  /**
   * The titles of the file, in order: the heading, the summary, each category whose list is
   * non-empty (deposits, ATM withdrawals, checks, card purchases) and the combined list.
   */
  lemma CsvTitles(data: Record)
    ensures Titles(CsvLines(data)) == [Heading, SummaryTitle]
      + OptionalName(|data.deposits| > 0, DepositsTitle) + OptionalName(|data.atmWithdrawals| > 0, AtmTitle)
      + OptionalName(|data.checksPaid| > 0, ChecksTitle) + OptionalName(|data.visaPurchases| > 0, CardTitle)
      + [AllTitle]
  {
    var s0, cat := SummaryLines(data.accountInfo), CategoryLines(data);
    var all := [AllTitle, AllColumns] + CombinedLines(data);
    assert CsvLines(data) == s0 + cat + all;
    TitlesAppend(s0 + cat, all);
    TitlesAppend(s0, cat);
    assert Titles(CsvLines(data)) == Titles(s0) + Titles(cat) + Titles(all);
    SummaryTitles(data.accountInfo);
    CategoryTitles(data);
    CombinedTitles(data);
    Regroup([Heading, SummaryTitle], OptionalName(|data.deposits| > 0, DepositsTitle),
      OptionalName(|data.atmWithdrawals| > 0, AtmTitle), OptionalName(|data.checksPaid| > 0, ChecksTitle),
      OptionalName(|data.visaPurchases| > 0, CardTitle), [AllTitle]);
  }

  lemma PrefixOf<T>(a: seq<T>, b: seq<T>, c: seq<T>)
    ensures (a + b + c)[..|a|] == a
  {
  }

  lemma SuffixOf<T>(a: seq<T>, b: seq<T>, c: seq<T>)
    ensures (a + (b + c))[|a + (b + c)| - |c|..] == c
  {
  }

  lemma Regroup<T>(a: seq<T>, b: seq<T>, c: seq<T>, d: seq<T>, e: seq<T>, f: seq<T>)
    ensures a + (b + c + d + e) + f == a + b + c + d + e + f
  {
  }

  lemma CategoryTitles(data: Record)
    ensures Titles(CategoryLines(data)) ==
      OptionalName(|data.deposits| > 0, DepositsTitle) + OptionalName(|data.atmWithdrawals| > 0, AtmTitle)
      + OptionalName(|data.checksPaid| > 0, ChecksTitle) + OptionalName(|data.visaPurchases| > 0, CardTitle)
  {
    var d, a, c, v := DepositsSection(data), AtmSection(data), ChecksSection(data), CardSection(data);
    TitleConstants();
    assert Titles(d) == OptionalName(|data.deposits| > 0, DepositsTitle) by {
      LinesHaveCommas();
      ItemLinesHaveCommas(data.deposits, DepositLine);
      SectionTitles(DepositsTitle, DepositsColumns, MapSeq(data.deposits, DepositLine));
    }
    assert Titles(a) == OptionalName(|data.atmWithdrawals| > 0, AtmTitle) by {
      LinesHaveCommas();
      ItemLinesHaveCommas(data.atmWithdrawals, DebitLine);
      SectionTitles(AtmTitle, DebitColumns, MapSeq(data.atmWithdrawals, DebitLine));
    }
    assert Titles(c) == OptionalName(|data.checksPaid| > 0, ChecksTitle) by {
      LinesHaveCommas();
      ItemLinesHaveCommas(data.checksPaid, CheckLine);
      SectionTitles(ChecksTitle, ChecksColumns, MapSeq(data.checksPaid, CheckLine));
    }
    assert Titles(v) == OptionalName(|data.visaPurchases| > 0, CardTitle) by {
      LinesHaveCommas();
      ItemLinesHaveCommas(data.visaPurchases, DebitLine);
      SectionTitles(CardTitle, DebitColumns, MapSeq(data.visaPurchases, DebitLine));
    }
    TitlesAppend(d + a + c, v);
    TitlesAppend(d + a, c);
    TitlesAppend(d, a);
  }

  lemma CombinedTitles(data: Record)
    ensures Titles([AllTitle, AllColumns] + CombinedLines(data)) == [AllTitle]
  {
    assert Titles(CombinedLines(data)) == [] by {
      LinesHaveCommas();
      ItemLinesHaveCommas(SortBy(Merged(data), DateKey), TransactionLine);
      TitlesNone(CombinedLines(data));
    }
    assert Titles([AllTitle, AllColumns]) == [AllTitle] by {
      TitleConstants();
      TitlesPair(AllTitle, AllColumns);
    }
    TitlesAppend([AllTitle, AllColumns], CombinedLines(data));
  }

  /** Each account field line holds a comma. */
  lemma SummaryFieldsNoTitles(info: AccountInfo)
    ensures Titles(SummaryFields(info)) == []
  {
    var fields := SummaryFields(info);
    assert fields[0][5] == ',';
    assert fields[1][14] == ',';
    assert fields[2][14] == ',';
    assert fields[3][17] == ',';
    assert fields[4][14] == ',';
    TitlesNone(fields);
  }

  lemma SummaryHeadTitles()
    ensures Titles([Heading, "", SummaryTitle]) == [Heading, SummaryTitle]
  {
    var head := [Heading, "", SummaryTitle];
    HeadingTitles();
    assert [SummaryTitle][1..] == [];
    assert Titles([SummaryTitle]) == [SummaryTitle];
    assert ["", SummaryTitle][1..] == [SummaryTitle];
    assert Titles(["", SummaryTitle]) == [SummaryTitle];
    assert head[1..] == ["", SummaryTitle];
  }

  lemma SummaryTitles(info: AccountInfo)
    ensures Titles(SummaryLines(info)) == [Heading, SummaryTitle]
  {
    var fields := SummaryFields(info);
    var head := [Heading, "", SummaryTitle];
    SummaryFieldsNoTitles(info);
    SummaryHeadTitles();
    assert Titles([""]) == [] by {
      assert [""][1..] == [];
    }
    TitlesAppend(head + fields, [""]);
    TitlesAppend(head, fields);
  }

  /** ATM withdrawals and card purchases print the magnitude: the line is the same for an amount and its negation. */
  lemma DebitLineIgnoresSign(w: Debit)
    ensures DebitLine(w) == DebitLine(w.(amount := -w.amount))
    ensures DollarFixed(Abs(w.amount))[1] != '-'
  {
    ToFixed2Sign(Abs(w.amount));
  }

  /**
   * A combined amount starts with `-` exactly when it is negative, holds the magnitude after the
   * sign, and its digits read back as that magnitude.
   */
  lemma SignedAmount(cents: int)
    ensures Signed(cents)[0] == '-' <==> cents < 0
    ensures cents < 0 ==> Signed(cents) == "-" + Signed(-cents)
    ensures var u := if cents < 0 then Signed(cents)[2..] else Signed(cents)[1..];
      |u| >= 4 && u[|u| - 3] == '.' && TokenCents(u[..|u| - 3], u[|u| - 2..]) == Abs(cents)
  {
    DollarFixedSign(Abs(cents));
    if cents < 0 {
      SignedNegative(cents);
    }
  }

  lemma SignedNegative(cents: int)
    requires cents < 0
    ensures Signed(cents) == "-" + Signed(-cents) && Signed(cents)[0] == '-'
    ensures Signed(cents)[2..] == DollarFixed(-cents)[1..]
  {
    var f := DollarFixed(-cents);
    assert Signed(-cents) == f;
    assert ("-" + f)[2..] == f[1..];
  }

  /** The number of lines a section takes: none for an empty list, otherwise three more than its items. */
  function SectionSize(n: nat): nat {
    if n == 0 then 0 else n + 3
  }

  lemma SectionLength(title: string, columns: string, lines: seq<string>)
    ensures |Section(title, columns, lines)| == SectionSize(|lines|)
  {
  }

  /**
   * The file has nine summary lines, each non-empty category's lines, the two lines opening the
   * combined list and one line per transaction.
   */
  lemma LineCount(data: Record)
    ensures |CsvLines(data)| == 9 + SectionSize(|data.deposits|) + SectionSize(|data.atmWithdrawals|)
      + SectionSize(|data.checksPaid|) + SectionSize(|data.visaPurchases|) + 2 + TransactionCount(data)
  {
    SectionLength(DepositsTitle, DepositsColumns, MapSeq(data.deposits, DepositLine));
    SectionLength(AtmTitle, DebitColumns, MapSeq(data.atmWithdrawals, DebitLine));
    SectionLength(ChecksTitle, ChecksColumns, MapSeq(data.checksPaid, CheckLine));
    SectionLength(CardTitle, DebitColumns, MapSeq(data.visaPurchases, DebitLine));
  }

  /**
   * The file ends with the combined list: as many lines as the count the panel shows, one per
   * transaction of the four lists, in date order, ties kept in the order gathered.
   */
  lemma CombinedSection(data: Record)
    ensures var l := CsvLines(data);
      |l| >= Results.GetTransactionCount(Some(data))
      && l[|l| - Results.GetTransactionCount(Some(data))..] == CombinedLines(data)
    ensures var s := SortBy(Merged(data), DateKey);
      CombinedLines(data) == MapSeq(s, TransactionLine)
      && Sorted(s, DateKey) && multiset(s) == multiset(Merged(data))
  {
    var comb := CombinedLines(data);
    assert |comb| == Results.GetTransactionCount(Some(data)) by {
      SortBySorted(Merged(data), DateKey);
      assert |SortBy(Merged(data), DateKey)| == |Merged(data)|;
    }
    SuffixOf(SummaryLines(data.accountInfo) + CategoryLines(data), [AllTitle, AllColumns], comb);
    SortBySorted(Merged(data), DateKey);
  }
}
