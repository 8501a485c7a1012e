/**
 * The results panel: the transaction count it shows, the amounts it formats and the name under
 * which the generated workbook is downloaded.
 */
module Results {
  import opened Wrappers
  import opened Text
  import opened Money
  import opened Statement
  import ExcelGenerator

  /** `formatCurrency`: the magnitude in US dollars; a missing amount is `$0.00`. */
  function FormatCurrency(amount: Option<int>): (r: string)
    ensures amount.None? ==> r == "$0.00"
    ensures |r| >= 5 && r[0] == '$' && r[|r| - 3] == '.'
  {
    match amount
    case None =>
      assert DecimalString(0) == "0";
      "$0.00"
    case Some(a) => Usd(Abs(a))
  }

  /** The sign of the amount is dropped: an amount and its negation print alike. */
  lemma FormatCurrencyIgnoresSign(a: int)
    ensures FormatCurrency(Some(a)) == FormatCurrency(Some(-a))
  {
  }

  /** The printed digits, commas removed, denote the magnitude of the amount in cents. */
  lemma FormatCurrencyReadsBack(a: int)
    ensures var r := FormatCurrency(Some(a));
      TokenCents(r[1..|r| - 3], r[|r| - 2..]) == Abs(a)
  {
    var n := Abs(a);
    var g, p := Grouped(n / 100), Pad2(n % 100);
    var r := "$" + g + "." + p;
    assert r[1..|r| - 3] == g && r[|r| - 2..] == p;
    UsdTokenValue(n);
  }

  /** `getTransactionCount`: no data counts zero transactions. */
  function GetTransactionCount(data: Option<Record>): (r: nat)
    ensures data.None? ==> r == 0
  {
    match data
    case None => 0
    case Some(d) => TransactionCount(d)
  }

  /** The count shown is the number of transactions the combined list holds. */
  lemma TransactionCountIsCombined(d: Record)
    ensures GetTransactionCount(Some(d)) == |ExcelGenerator.Merged(d)|
    ensures GetTransactionCount(Some(d)) == 0 <==> ExcelGenerator.Merged(d) == []
  {
  }

  /**
   * `filename?.replace('.pdf', '') || fallback`: the name with its first `.pdf` cut out, or the
   * fallback when there is no name or nothing is left.
   */
  function OriginalName(filename: Option<string>, fallback: string): (r: string)
    ensures filename.None? ==> r == fallback
    ensures filename.Some? && ReplaceFirst(filename.value, ".pdf", "") == "" ==> r == fallback
    ensures filename.Some? && ReplaceFirst(filename.value, ".pdf", "") != "" ==> r == ReplaceFirst(filename.value, ".pdf", "")
  {
    match filename
    case None => fallback
    case Some(f) => if ReplaceFirst(f, ".pdf", "") == "" then fallback else ReplaceFirst(f, ".pdf", "")
  }

  /** The stem of `<stem>.pdf` is kept when it contains no `.pdf` of its own. */
  lemma OriginalNameStem(stem: string, fallback: string)
    requires stem != []
    requires IndexOf(stem, ".pdf").None?
    ensures OriginalName(Some(stem + ".pdf"), fallback) == stem
  {
    var f := stem + ".pdf";
    PdfAfterStem(stem, []);
    assert f + [] == f;
    assert IndexOf(f, ".pdf") == Some(|stem|);
    assert f[..|stem|] == stem && f[|stem| + 4..] == [];
  }

  /** Only the first `.pdf` is removed. */
  lemma OriginalNameFirstOnly()
    ensures OriginalName(Some("a.pdf.pdf"), "bank-statement") == "a.pdf"
    ensures OriginalName(Some(".pdf"), "bank-statement") == "bank-statement"
  {
    var f := "a.pdf.pdf";
    assert !OccursAt(f, ".pdf", 0) by { assert f[0] == 'a'; }
    assert OccursAt(f, ".pdf", 1) by { assert f[1..5] == ".pdf"; }
    assert IndexOf(f, ".pdf") == Some(1);
    assert f[..1] + "" + f[5..] == "a.pdf";
    assert OccursAt(".pdf", ".pdf", 0) by { assert ".pdf"[0..4] == ".pdf"; }
  }

  /** The name under which the workbook is saved. */
  function ExcelFilename(filename: Option<string>): (r: string)
    ensures |r| >= 15 && r[|r| - 15..] == "-converted.xlsx"
  {
    OriginalName(filename, "bank-statement") + "-converted.xlsx"
  }

  /** `handleDownload`: with no workbook nothing is downloaded; otherwise the file is saved under its name. */
  function HandleDownload(hasExcelFile: bool, filename: Option<string>): (r: Option<string>)
    ensures r.None? <==> !hasExcelFile
  {
    if !hasExcelFile then None else Some(ExcelFilename(filename))
  }

  /** A missing name, or one that is only `.pdf`, gives the default download name. */
  lemma DefaultExcelFilename(filename: Option<string>)
    requires filename.None? || filename == Some(".pdf") || filename == Some("")
    ensures HandleDownload(true, filename) == Some("bank-statement-converted.xlsx")
  {
    if filename == Some(".pdf") {
      assert OccursAt(".pdf", ".pdf", 0) by { assert ".pdf"[0..4] == ".pdf"; }
      assert IndexOf(".pdf", ".pdf") == Some(0);
      assert ReplaceFirst(".pdf", ".pdf", "") == "";
    } else if filename == Some("") {
      assert IndexOf("", ".pdf").None?;
      assert ReplaceFirst("", ".pdf", "") == "";
    }
    assert OriginalName(filename, "bank-statement") == "bank-statement";
    assert "bank-statement" + "-converted.xlsx" == "bank-statement-converted.xlsx";
  }
}
