/**
 * The statement text parser: account information by field assignment, then one `exec` loop per
 * transaction category over that category's section of the text.
 */
module PdfProcessor {
  import opened Wrappers
  import opened Text
  import opened Money
  import opened Statement
  import opened PdfPatterns

  const UnsupportedFormat := "Unable to parse bank statement. Please ensure this is a supported text-based PDF format."
  const FailurePrefix := "Failed to process PDF: "

  /** `match[i + 1]` (the empty string for a group the pattern does not have). */
  function Group(m: Match, i: nat): string {
    if i < |m.groups| then m.groups[i] else ""
  }

  /** `parseFloat(token.replace(/,/g, ''))` in cents, for an amount token `[\d,]+\.\d{2}`. */
  function AmountCents(token: string): nat {
    if |token| < 3 then 0 else TokenCents(token[..|token| - 3], token[|token| - 2..])
  }

  // ---------------------------------------------------------------------------------------------
  // Specification of the parse

  function AccountNumberOf(text: string): Option<string> {
    match FirstMatch(text, AccountNumber)
    case None => None
    case Some(f) => Some(Group(f.m, 0))
  }

  /** `text.match(labelled) || text.match(any)`, then group 1. */
  function StatementDateOf(text: string): Option<string> {
    match FirstMatch(text, LabelledDate)
    case Some(f) => Some(Group(f.m, 0))
    case None =>
      match FirstMatch(text, AnyDate)
      case Some(f) => Some(Group(f.m, 0))
      case None => None
  }

  function BalanceOf(text: string, l: BalanceLabel): Option<int> {
    match FirstMatch(text, Balance(l))
    case None => None
    case Some(f) => Some(AmountCents(Group(f.m, 0)) as int)
  }

  function AccountInfoOf(text: string): AccountInfo {
    AccountInfo(AccountNumberOf(text), StatementDateOf(text), BalanceOf(text, Beginning), BalanceOf(text, Ending))
  }

  /** `text.match(sectionPattern)[0]`: from the first header to the first later stop word or the end. */
  function SectionOf(text: string, h: Header): Option<string> {
    match FirstMatch(text, Section(h))
    case None => None
    case Some(f) => Some(text[f.start..f.m.end])
  }

  predicate KeepDeposit(m: Match) {
    Trim(Group(m, 1)) != "" && !Contains(LowerStr(Group(m, 1)), "deposits & other credits")
  }

  function DepositFrom(m: Match): Deposit {
    Deposit(Group(m, 0), Trim(Group(m, 1)), AmountCents(Group(m, 2)))
  }

  predicate KeepAtm(m: Match) {
    Trim(Group(m, 2)) != "" && !Contains(LowerStr(Group(m, 2)), "atm withdrawal")
  }

  predicate KeepVisa(m: Match) {
    Trim(Group(m, 2)) != "" && !Contains(LowerStr(Group(m, 2)), "visa")
  }

  /** An ATM or card row: the amount is always negated, whether or not the text had a `-`. */
  function DebitFrom(m: Match): Debit {
    Debit(Group(m, 0), Group(m, 1), Trim(Group(m, 2)), -(AmountCents(Group(m, 3)) as int))
  }

  /** Check rows are all kept. */
  predicate KeepCheck(m: Match) {
    true
  }

  function CheckFrom(m: Match): Check {
    Check(Group(m, 0), Group(m, 1), AmountCents(Group(m, 2)), Group(m, 3))
  }

  /** The rows built from the visited matches that the category's filter keeps, in the order visited. */
  function RowsFrom<R>(ms: seq<Found>, keep: Match -> bool, make: Match -> R): seq<R> {
    if ms == [] then []
    else (if keep(ms[0].m) then [make(ms[0].m)] else []) + RowsFrom(ms[1..], keep, make)
  }

  lemma RowsFromCons<R>(f: Found, rest: seq<Found>, keep: Match -> bool, make: Match -> R)
    ensures keep(f.m) ==> RowsFrom([f] + rest, keep, make) == [make(f.m)] + RowsFrom(rest, keep, make)
    ensures !keep(f.m) ==> RowsFrom([f] + rest, keep, make) == RowsFrom(rest, keep, make)
  {
    assert ([f] + rest)[1..] == rest;
  }

  /** One turn of the collecting loop keeps the rows gathered plus the rows still to come the same. */
  lemma CollectStep<R>(before: seq<R>, after: seq<R>, f: Found, rest: seq<Found>, keep: Match -> bool, make: Match -> R)
    requires after == if keep(f.m) then before + [make(f.m)] else before
    ensures after + RowsFrom(rest, keep, make) == before + RowsFrom([f] + rest, keep, make)
  {
    RowsFromCons(f, rest, keep, make);
    if keep(f.m) {
      var x, y, z := before, [make(f.m)], RowsFrom(rest, keep, make);
      assert (x + y) + z == x + (y + z);
    }
  }

  /** One turn of the loop: the rows so far and those still to come are unchanged as a whole. */
  lemma CollectTurn<R>(section: string, from: nat, p: Pattern, f: Found, before: seq<R>, after: seq<R>,
                       keep: Match -> bool, make: Match -> R)
    requires Exec(section, from, p) == Some(f)
    requires after == if keep(f.m) then before + [make(f.m)] else before
    ensures after + RowsFrom(Matches(section, f.m.end, p), keep, make) == before + RowsFrom(Matches(section, from, p), keep, make)
  {
    MatchesStep(section, from, p, f);
    CollectStep(before, after, f, Matches(section, f.m.end, p), keep, make);
  }

  /** Every row comes from a visited match its filter keeps, and every kept match gives a row. */
  lemma {:induction false} RowsFromMembers<R>(ms: seq<Found>, keep: Match -> bool, make: Match -> R, r: R)
    ensures r in RowsFrom(ms, keep, make) <==> exists i :: 0 <= i < |ms| && keep(ms[i].m) && make(ms[i].m) == r
    decreases |ms|
  {
    if ms != [] {
      RowsFromMembers(ms[1..], keep, make, r);
      if exists i :: 0 <= i < |ms| && keep(ms[i].m) && make(ms[i].m) == r {
        var i :| 0 <= i < |ms| && keep(ms[i].m) && make(ms[i].m) == r;
        if i > 0 {
          assert ms[1..][i - 1] == ms[i];
        }
      }
      if r in RowsFrom(ms[1..], keep, make) {
        var i :| 0 <= i < |ms[1..]| && keep(ms[1..][i].m) && make(ms[1..][i].m) == r;
        assert ms[i + 1] == ms[1..][i];
      }
    }
  }

  /** The rows of a category: the matches of its row pattern within its section, none if there is no section. */
  function RowMatches(text: string, h: Header, p: Pattern): seq<Found> {
    match SectionOf(text, h)
    case None => []
    case Some(section) => Matches(section, 0, p)
  }

  function DepositsOf(text: string): seq<Deposit> {
    RowsFrom(RowMatches(text, DepositsHeader, DepositRow), KeepDeposit, DepositFrom)
  }

  function AtmWithdrawalsOf(text: string): seq<Debit> {
    RowsFrom(RowMatches(text, AtmHeader, DebitRow), KeepAtm, DebitFrom)
  }

  function ChecksPaidOf(text: string): seq<Check> {
    RowsFrom(RowMatches(text, ChecksHeader, CheckRow), KeepCheck, CheckFrom)
  }

  function VisaPurchasesOf(text: string): seq<Debit> {
    RowsFrom(RowMatches(text, VisaHeader, DebitRow), KeepVisa, DebitFrom)
  }

  function RecordOf(text: string): Record {
    Record(AccountInfoOf(text), DepositsOf(text), AtmWithdrawalsOf(text), ChecksPaidOf(text), VisaPurchasesOf(text))
  }

  // ---------------------------------------------------------------------------------------------
  // The parser

  method ParseAccountInfo(text: string) returns (info: AccountInfo)
    ensures info == AccountInfoOf(text)
  {
    info := NoAccountInfo;
    var accountMatch := FirstMatch(text, AccountNumber);
    if accountMatch.Some? {
      info := info.(accountNumber := Some(Group(accountMatch.value.m, 0)));
    }
    var dateMatch := FirstMatch(text, LabelledDate);
    if dateMatch.None? {
      dateMatch := FirstMatch(text, AnyDate);
    }
    if dateMatch.Some? {
      info := info.(statementDate := Some(Group(dateMatch.value.m, 0)));
    }
    var beginningMatch := FirstMatch(text, Balance(Beginning));
    if beginningMatch.Some? {
      info := info.(beginningBalance := Some(AmountCents(Group(beginningMatch.value.m, 0)) as int));
    }
    var endingMatch := FirstMatch(text, Balance(Ending));
    if endingMatch.Some? {
      info := info.(endingBalance := Some(AmountCents(Group(endingMatch.value.m, 0)) as int));
    }
  }

  /**
   * The `while ((match = rowPattern.exec(section)) !== null)` loop every category runs over its
   * section: each search resumes at `lastIndex`, the end of the previous match, and a match the
   * category's filter keeps is pushed as a row.
   */
  method CollectRows<R>(section: string, p: Pattern, keep: Match -> bool, make: Match -> R) returns (rows: seq<R>)
    ensures rows == RowsFrom(Matches(section, 0, p), keep, make)
  {
    rows := [];
    var lastIndex := 0;
    var found := Exec(section, lastIndex, p);
    while found.Some?
      invariant lastIndex <= |section|
      invariant found == Exec(section, lastIndex, p)
      invariant rows + RowsFrom(Matches(section, lastIndex, p), keep, make) == RowsFrom(Matches(section, 0, p), keep, make)
      decreases |section| - lastIndex
    {
      var m := found.value.m;
      ghost var before := rows;
      if keep(m) {
        rows := rows + [make(m)];
      }
      CollectTurn(section, lastIndex, p, found.value, before, rows, keep, make);
      lastIndex := m.end;
      found := Exec(section, lastIndex, p);
    }
  }

  /** The section of the text a category's rows are read from, when its header is present. */
  method FindSection(text: string, h: Header) returns (section: Option<string>)
    ensures section == SectionOf(text, h)
  {
    var sectionMatch := FirstMatch(text, Section(h));
    if sectionMatch.None? {
      return None;
    }
    return Some(text[sectionMatch.value.start..sectionMatch.value.m.end]);
  }

  method ParseDeposits(text: string) returns (deposits: seq<Deposit>)
    ensures deposits == DepositsOf(text)
  {
    var section := FindSection(text, DepositsHeader);
    if section.None? {
      return [];
    }
    deposits := CollectRows(section.value, DepositRow, KeepDeposit, DepositFrom);
  }

  method ParseAtmWithdrawals(text: string) returns (atmWithdrawals: seq<Debit>)
    ensures atmWithdrawals == AtmWithdrawalsOf(text)
  {
    var section := FindSection(text, AtmHeader);
    if section.None? {
      return [];
    }
    atmWithdrawals := CollectRows(section.value, DebitRow, KeepAtm, DebitFrom);
  }

  method ParseChecksPaid(text: string) returns (checksPaid: seq<Check>)
    ensures checksPaid == ChecksPaidOf(text)
  {
    var section := FindSection(text, ChecksHeader);
    if section.None? {
      return [];
    }
    checksPaid := CollectRows(section.value, CheckRow, KeepCheck, CheckFrom);
  }

  method ParseVisaPurchases(text: string) returns (visaPurchases: seq<Debit>)
    ensures visaPurchases == VisaPurchasesOf(text)
  {
    var section := FindSection(text, VisaHeader);
    if section.None? {
      return [];
    }
    visaPurchases := CollectRows(section.value, DebitRow, KeepVisa, DebitFrom);
  }

  method ParseBankStatementText(text: string) returns (data: Record)
    ensures data == RecordOf(text)
  {
    var accountInfo := ParseAccountInfo(text);
    var deposits := ParseDeposits(text);
    var atmWithdrawals := ParseAtmWithdrawals(text);
    var checksPaid := ParseChecksPaid(text);
    var visaPurchases := ParseVisaPurchases(text);
    data := Record(accountInfo, deposits, atmWithdrawals, checksPaid, visaPurchases);
  }

  /**
   * The account-number check after parsing: without an account number the whole statement is
   * rejected, whatever transactions were found; otherwise the parsed record is returned.
   */
  method ProcessBankStatement(text: string) returns (r: Result<Record, string>)
    ensures r.Failure? <==> AccountNumberOf(text).None?
    ensures r.Failure? ==> r.error == FailurePrefix + UnsupportedFormat
    ensures r.Success? ==> r.value == RecordOf(text) && r.value.accountInfo.accountNumber.Some?
  {
    var parsedData := ParseBankStatementText(text);
    if parsedData.accountInfo.accountNumber.None? || parsedData.accountInfo.accountNumber.value == "" {
      AccountNumberNonEmpty(text);
      return Failure(FailurePrefix + UnsupportedFormat);
    }
    return Success(parsedData);
  }

  // ---------------------------------------------------------------------------------------------
  // Properties of the parse

  /** Every account number found is a non-empty run of digits, so it is never falsy. */
  lemma AccountNumberNonEmpty(text: string)
    ensures AccountNumberOf(text).Some? ==>
      AccountNumberOf(text).value != "" && AllDigits(AccountNumberOf(text).value)
  {
  }

  /** A visited row match lies inside the category's section and matches the row pattern there. */
  lemma RowMatchAt(text: string, h: Header, p: Pattern, j: nat)
    requires j < |RowMatches(text, h, p)|
    ensures SectionOf(text, h).Some?
    ensures var sec, f := SectionOf(text, h).value, RowMatches(text, h, p)[j];
      f.start <= |sec| && MatchAt(sec, f.start, p) == Some(f.m)
  {
    var sec := SectionOf(text, h).value;
    MatchesLeftmost(sec, 0, p, j);
  }

  lemma DepositMatchShape(sec: string, k: nat, m: Match)
    requires k <= |sec| && MatchAt(sec, k, DepositRow) == Some(m)
    ensures |m.groups| == 3 && IsShortDate(m.groups[0]) && NoOuterSpace(m.groups[1]) && NoDollarOrDigit(m.groups[1])
  {
    assert DepositRowAt(sec, k) == Some(m);
    DepositRowShape(sec, k, m);
  }

  lemma DebitMatchShape(sec: string, k: nat, m: Match)
    requires k <= |sec| && MatchAt(sec, k, DebitRow) == Some(m)
    ensures |m.groups| == 4 && IsShortDate(m.groups[0]) && IsShortDate(m.groups[1])
      && NoOuterSpace(m.groups[2]) && NoDashOrDollar(m.groups[2])
  {
    assert DebitRowAt(sec, k) == Some(m);
    MatchAtDebitRow(sec, k);
  }

  lemma CheckMatchShape(sec: string, k: nat, m: Match)
    requires k <= |sec| && MatchAt(sec, k, CheckRow) == Some(m)
    ensures |m.groups| == 4 && IsShortDate(m.groups[0]) && m.groups[1] != "" && AllDigits(m.groups[1])
      && m.groups[3] != "" && AllDigits(m.groups[3])
  {
    assert CheckRowAt(sec, k) == Some(m);
    CheckRowShape(sec, k, m);
  }

  /** The visited match a row of a category was built from. */
  lemma RowOrigin<R>(text: string, h: Header, p: Pattern, keep: Match -> bool, make: Match -> R, r: R)
      returns (sec: string, k: nat, m: Match)
    requires r in RowsFrom(RowMatches(text, h, p), keep, make)
    ensures SectionOf(text, h) == Some(sec) && k <= |sec| && MatchAt(sec, k, p) == Some(m)
    ensures keep(m) && make(m) == r
  {
    var ms := RowMatches(text, h, p);
    RowsFromMembers(ms, keep, make, r);
    var j :| 0 <= j < |ms| && keep(ms[j].m) && make(ms[j].m) == r;
    RowMatchAt(text, h, p, j);
    sec, k, m := SectionOf(text, h).value, ms[j].start, ms[j].m;
  }

  /**
   * Every deposit has a `MM-DD` date, a non-empty trimmed description without `$` or digits that
   * is not the section's own heading.
   */
  lemma DepositsWellFormed(text: string, d: Deposit)
    requires d in DepositsOf(text)
    ensures IsShortDate(d.dateCredited) && d.description != "" && NoOuterSpace(d.description)
      && NoDollarOrDigit(d.description) && !Contains(LowerStr(d.description), "deposits & other credits")
  {
    var sec, k, m := RowOrigin(text, DepositsHeader, DepositRow, KeepDeposit, DepositFrom, d);
    DepositMatchShape(sec, k, m);
    TrimKeeps(m.groups[1]);
  }

  /**
   * Every ATM withdrawal has two `MM-DD` dates, a non-empty trimmed description without `-` or `$`
   * other than the heading, and an amount of at most zero.
   */
  lemma AtmWithdrawalsWellFormed(text: string, w: Debit)
    requires w in AtmWithdrawalsOf(text)
    ensures IsShortDate(w.tranDate) && IsShortDate(w.datePosted) && w.description != ""
      && NoOuterSpace(w.description) && NoDashOrDollar(w.description)
      && !Contains(LowerStr(w.description), "atm withdrawal") && w.amount <= 0
  {
    var sec, k, m := RowOrigin(text, AtmHeader, DebitRow, KeepAtm, DebitFrom, w);
    DebitMatchShape(sec, k, m);
    TrimKeeps(m.groups[2]);
  }

  /** Every card purchase has the shape of an ATM row, with `visa` absent from its description. */
  lemma VisaPurchasesWellFormed(text: string, v: Debit)
    requires v in VisaPurchasesOf(text)
    ensures IsShortDate(v.tranDate) && IsShortDate(v.datePosted) && v.description != ""
      && NoOuterSpace(v.description) && NoDashOrDollar(v.description)
      && !Contains(LowerStr(v.description), "visa") && v.amount <= 0
  {
    var sec, k, m := RowOrigin(text, VisaHeader, DebitRow, KeepVisa, DebitFrom, v);
    DebitMatchShape(sec, k, m);
    TrimKeeps(m.groups[2]);
  }

  /** Every check paid has a `MM-DD` date and non-empty digit strings for its number and reference. */
  lemma ChecksPaidWellFormed(text: string, c: Check)
    requires c in ChecksPaidOf(text)
    ensures IsShortDate(c.datePaid) && c.checkNumber != "" && AllDigits(c.checkNumber)
      && c.referenceNumber != "" && AllDigits(c.referenceNumber)
  {
    var sec, k, m := RowOrigin(text, ChecksHeader, CheckRow, KeepCheck, CheckFrom, c);
    CheckMatchShape(sec, k, m);
  }

  /** Every check row of the section is kept: there are as many checks as row matches. */
  lemma {:induction false} ChecksPaidCount(ms: seq<Found>)
    ensures |RowsFrom(ms, KeepCheck, CheckFrom)| == |ms|
    decreases |ms|
  {
    if ms != [] {
      ChecksPaidCount(ms[1..]);
    }
  }

  /** `Account # <digits>` at the start of the text gives that account number. */
  lemma AccountNumberRead(digits: string, rest: string)
    requires digits != [] && AllDigits(digits) && (rest == [] || !IsDigit(rest[0]))
    ensures AccountNumberOf("Account # " + digits + rest) == Some(digits)
  {
    AccountReads(digits, rest);
  }

  /** A statement whose only account line reads `Account Number: 000009752`. */
  const NumberLabelStatement := "Account Number: " + NumberLabelDigits
  const NumberLabelDigits := "000009752"

  /** No account number starts where no `a` or `A` begins the word `account`. */
  lemma NoAccountWordFrom(s: string, from: nat)
    requires forall k :: from <= k < |s| ==> s[k] != 'a' && s[k] != 'A'
    ensures forall k :: from <= k <= |s| ==> MatchAt(s, k, AccountNumber).None?
  {
    forall k | from <= k <= |s|
      ensures MatchAt(s, k, AccountNumber).None?
    {
      if k + 7 <= |s| {
        assert LowerStr(s[k..k + 7])[0] == Lower(s[k]);
      }
    }
  }

  lemma NumberLabelStatementLetters()
    ensures forall k :: 1 <= k < |NumberLabelStatement| ==> NumberLabelStatement[k] != 'a' && NumberLabelStatement[k] != 'A'
  {
  }

  /**
   * The account pattern as written finds no account number in that statement, so the whole
   * statement is rejected as unsupported.
   */
  lemma NumberLabelStatementRejected()
    ensures AccountNumberOf(NumberLabelStatement).None?
  {
    AccountNumberLabelMissed(NumberLabelDigits, "");
    assert NumberLabelStatement + "" == NumberLabelStatement;
    NumberLabelStatementLetters();
    NoAccountWordFrom(NumberLabelStatement, 1);
  }

  /** With the corrected pattern the same statement yields its account number. */
  lemma NumberLabelStatementCorrected()
    ensures CorrectedAccountAt(NumberLabelStatement, 0) == Some(Match(25, [NumberLabelDigits]))
  {
    CorrectedAccountReadsLabel(NumberLabelDigits, "");
    assert NumberLabelStatement + "" == NumberLabelStatement;
  }

  /** `Statement Date: <date>` at the start of the text gives that date. */
  lemma StatementDateRead(month: string, day: string, year: string, rest: string)
    requires DateParts(month, day, year)
    ensures StatementDateOf("Statement Date: " + DateText(month, day, year) + rest) == Some(DateText(month, day, year))
  {
    LabelledDateReads(month, day, year, rest);
  }

  /** A formatted amount after a balance label is read back as the same number of cents. */
  lemma BalanceRead(l: BalanceLabel, cents: nat, rest: string)
    ensures BalanceOf(LabelText(l) + " Balance: " + Usd(cents) + rest, l) == Some(cents as int)
  {
    var g := Grouped(cents / 100) + "." + Pad2(cents % 100);
    UsdText(LabelText(l), cents, rest);
    UsdIsAmountToken(cents);
    LabelTextMatches(l);
    BalanceReadsToken(l, LabelText(l), g, rest);
    BalanceAtStartRead(LabelText(l) + " Balance: $" + g + rest, l, g);
    UsdAmountCents(cents);
  }

  lemma UsdText(t: string, cents: nat, rest: string)
    ensures t + " Balance: " + Usd(cents) + rest == t + " Balance: $" + (Grouped(cents / 100) + "." + Pad2(cents % 100)) + rest
  {
  }

  lemma BalanceAtStartRead(text: string, l: BalanceLabel, g: string)
    requires BalanceAt(text, 0, l).Some? && BalanceAt(text, 0, l).value.groups == [g]
    ensures BalanceOf(text, l) == Some(AmountCents(g) as int)
  {
    var m := BalanceAt(text, 0, l).value;
    MatchAtBalance(text, 0, l);
    assert FirstMatch(text, Balance(l)) == Some(Found(0, m));
  }

  lemma UsdAmountCents(cents: nat)
    ensures AmountCents(Grouped(cents / 100) + "." + Pad2(cents % 100)) == cents
  {
    var p := Grouped(cents / 100);
    var g := p + "." + Pad2(cents % 100);
    assert g[..|g| - 3] == p && g[|g| - 2..] == Pad2(cents % 100);
    UsdTokenValue(cents);
  }

  lemma UsdIsAmountToken(cents: nat)
    ensures IsAmountToken(Grouped(cents / 100) + "." + Pad2(cents % 100))
  {
    var p := Grouped(cents / 100);
    var g := p + "." + Pad2(cents % 100);
    forall j | 0 <= j < |g| - 3
      ensures InClass(g[j], DigitOrComma)
    {
      assert g[j] == p[j];
    }
  }

  /**
   * A section is cut from the text at the first header of its category, and it ends at the first
   * stop word after that header or at the end of the text; no row is read from beyond that point.
   */
  lemma SectionBounds(text: string, h: Header) returns (k: nat, e: nat)
    requires SectionOf(text, h).Some?
    ensures k <= |text| && HeaderAt(text, k, h) == Some(e)
    ensures forall j :: 0 <= j < k ==> HeaderAt(text, j, h).None?
    ensures SectionOf(text, h).value == text[k..SectionEnd(text, e, StopWords(h))]
  {
    var f := FirstMatch(text, Section(h)).value;
    k, e := f.start, HeaderAt(text, f.start, h).value;
    forall j | 0 <= j < k
      ensures HeaderAt(text, j, h).None?
    {
      assert MatchAt(text, j, Section(h)).None?;
    }
  }

  /** A category has a section exactly when its header occurs somewhere in the text. */
  lemma SectionPresent(text: string, h: Header)
    ensures SectionOf(text, h).Some? <==> exists k :: 0 <= k <= |text| && HeaderAt(text, k, h).Some?
  {
    if SectionOf(text, h).None? {
      forall k | 0 <= k <= |text|
        ensures HeaderAt(text, k, h).None?
      {
        assert MatchAt(text, k, Section(h)).None?;
      }
    } else {
      var k, e := SectionBounds(text, h);
    }
  }

  /** The deposit line of the upload screen's sample statement. */
  const SampleDepositLine := "05-15 Deposit Ref Nbr: 130012345 $3,615.08"

  /**
   * The deposit pattern does not match that line, although its own comment gives it as the
   * example: the reference number is the first digit run after the date, and it is no amount.
   */
  lemma SampleDepositLineNotRow()
    ensures DepositRowAt(SampleDepositLine, 0).None?
  {
    if DepositRowAt(SampleDepositLine, 0).Some? {
      var a, z := DepositRowAmount(SampleDepositLine);
      SampleDepositLineNoToken(a, z);
      assert false;
    }
  }

  /** A deposit row at the start of a line holds an amount token with no digit between the date and it. */
  lemma DepositRowAmount(s: string) returns (a: nat, z: nat)
    requires DepositRowAt(s, 0).Some?
    ensures 5 <= a <= z <= |s| && AmountToken(s, a, z)
    ensures forall j :: 5 <= j < a ==> !IsDigit(s[j])
  {
    var m := DepositRowAt(s, 0).value;
    DepositRowShape(s, 0, m);
    DepositAmountFirstDigits(s, 0);
    a, z := m.end - |m.groups[2]|, m.end;
    AmountTokenAt(s, a, z, m.groups[2]);
  }

  lemma AmountTokenAt(s: string, a: nat, z: nat, g: string)
    requires a <= z <= |s| && s[a..z] == g && IsAmountToken(g)
    ensures AmountToken(s, a, z)
  {
    AmountTokenShift(s, a, g);
  }

  lemma SampleDepositLineNoToken(a: nat, z: nat)
    requires 5 <= a <= z <= |SampleDepositLine|
    requires forall j :: 5 <= j < a ==> !IsDigit(SampleDepositLine[j])
    ensures !AmountToken(SampleDepositLine, a, z)
  {
    var s := SampleDepositLine;
    assert IsDigit(s[23]);
    if a < 23 {
      assert !InClass(s[a], DigitOrComma);
    } else if z < a + 4 {
    } else if z - 3 <= 32 {
      assert forall j :: 23 <= j <= 32 ==> s[j] != '.';
    } else {
      assert !InClass(s[32], DigitOrComma);
    }
  }
}
