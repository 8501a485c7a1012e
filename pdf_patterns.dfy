/**
 * The regular expressions of the statement parser as left-to-right scanners.
 *
 * Every quantifier in these patterns is forced: the piece after a greedy run can never begin with
 * a character the run could give back, so the backtracking engine never ends up at another match
 * than the longest run. The one non-greedy group, a transaction description, ends at the first
 * position from which the rest of the row matches (`FirstTail`, an instance of `FirstHit`). `/i` folds only ASCII letters.
 */
module PdfPatterns {
  import opened Wrappers
  import opened Text

  // ---------------------------------------------------------------------------------------------
  // Character classes and runs

  datatype CharClass =
    | Space            // \s
    | Digit            // \d
    | DigitOrComma     // [\d,]
    | Letter           // [A-Za-z]
    | NoDollarNoDigit  // [^$\d]
    | NoDashNoDollar   // [^-$]

  predicate InClass(c: char, k: CharClass) {
    if k == Space then IsSpace(c)
    else if k == Digit then IsDigit(c)
    else if k == DigitOrComma then IsDigit(c) || c == ','
    else if k == Letter then IsAsciiLetter(c)
    else if k == NoDollarNoDigit then c != '$' && !IsDigit(c)
    else c != '-' && c != '$'
  }

  predicate AllIn(s: string, i: nat, e: nat, k: CharClass)
    requires i <= e <= |s|
  {
    forall j :: i <= j < e ==> InClass(s[j], k)
  }

  /** `s[i..e]` is what a greedy `k*` consumes at `i`: a run of `k` that cannot be extended. */
  predicate MaxRun(s: string, i: nat, e: nat, k: CharClass) {
    i <= e <= |s| && AllIn(s, i, e, k) && (e == |s| || !InClass(s[e], k))
  }

  function RunEnd(s: string, i: nat, k: CharClass): (e: nat)
    requires i <= |s|
    ensures MaxRun(s, i, e, k)
    decreases |s| - i
  {
    if i < |s| && InClass(s[i], k) then RunEnd(s, i + 1, k) else i
  }

  lemma MaxRunUnique(s: string, i: nat, e: nat, k: CharClass)
    requires MaxRun(s, i, e, k)
    ensures RunEnd(s, i, k) == e
  {
  }

  /** The lower-case word `w` at `i`, ignoring ASCII case. */
  predicate CiAt(s: string, i: nat, w: string) {
    i + |w| <= |s| && LowerStr(s[i..i + |w|]) == w
  }

  /** A greedy optional letter `c?` under `/i`, `c` being lower-case. */
  function Opt(s: string, i: nat, c: char): (e: nat)
    requires i <= |s|
    ensures e == i || (i < |s| && e == i + 1 && Lower(s[i]) == c)
    ensures e == i <==> (i == |s| || Lower(s[i]) != c)
  {
    if i < |s| && Lower(s[i]) == c then i + 1 else i
  }

  /** A greedy optional punctuation character `c?`, which case folding leaves alone. */
  function OptChar(s: string, i: nat, c: char): (e: nat)
    requires i <= |s|
    ensures e == i || (i < |s| && e == i + 1 && s[i] == c)
    ensures e == i <==> (i == |s| || s[i] != c)
  {
    if i < |s| && s[i] == c then i + 1 else i
  }

  // ---------------------------------------------------------------------------------------------
  // Tokens shared by several patterns

  /** `s[i..z]` is an amount token `[\d,]+\.\d{2}`. */
  predicate AmountToken(s: string, i: nat, z: nat) {
    i + 4 <= z <= |s| && AllIn(s, i, z - 3, DigitOrComma)
    && s[z - 3] == '.' && IsDigit(s[z - 2]) && IsDigit(s[z - 1])
  }

  /** Where an amount token starting at `i` ends; there is at most one such end. */
  function AmountAt(s: string, i: nat): (r: Option<nat>)
    requires i <= |s|
    ensures forall z: nat :: AmountToken(s, i, z) <==> r == Some(z)
  {
    var e := RunEnd(s, i, DigitOrComma);
    if i < e && e + 3 <= |s| && s[e] == '.' && IsDigit(s[e + 1]) && IsDigit(s[e + 2]) then
      Some(e + 3)
    else
      assert forall z: nat :: AmountToken(s, i, z) ==> z - 3 == e by {
        forall z: nat | AmountToken(s, i, z)
          ensures z - 3 == e
        {
          MaxRunUnique(s, i, z - 3, DigitOrComma);
        }
      }
      None
  }

  /** A `\d{2}-\d{2}` date at `k`. */
  predicate ShortDateAt(s: string, k: nat) {
    k + 5 <= |s| && IsShortDate(s[k..k + 5])
  }

  /** `[A-Za-z]+\s+\d{1,2},?\s+\d{4}` at `q`: where such a date ends. */
  function LongDateAt(s: string, q: nat): (r: Option<nat>)
    requires q <= |s|
    ensures r.Some? ==> q < r.value <= |s|
  {
    var l := RunEnd(s, q, Letter);
    var m := RunEnd(s, l, Space);
    if l == q || m == l || m == |s| || !IsDigit(s[m]) then None
    else
      var d := if m + 1 < |s| && IsDigit(s[m + 1]) then m + 2 else m + 1;
      var c := OptChar(s, d, ',');
      var n := RunEnd(s, c, Space);
      if n == c || n + 4 > |s| || !AllDigits(s[n..n + 4]) then None else Some(n + 4)
  }

  // ---------------------------------------------------------------------------------------------
  // Row tails and the non-greedy description

  datatype TailKind =
    | CreditTail  // \s*\$?([\d,]+\.\d{2})
    | DebitTail   // \s*-?\$?([\d,]+\.\d{2})

  datatype Tail = Tail(amountStart: nat, end: nat)

  function TailAt(s: string, x: nat, t: TailKind): (r: Option<Tail>)
    requires x <= |s|
    ensures r.Some? ==> x <= r.value.amountStart && AmountToken(s, r.value.amountStart, r.value.end)
  {
    var y := RunEnd(s, x, Space);
    var z := if t == DebitTail then OptChar(s, OptChar(s, y, '-'), '$') else OptChar(s, y, '$');
    match AmountAt(s, z)
    case None => None
    case Some(e) => Some(Tail(z, e))
  }

  function DescClass(t: TailKind): CharClass {
    if t == CreditTail then NoDollarNoDigit else NoDashNoDollar
  }

  /** A class run from `w` cannot pass a position `x` whose character is outside the class. */
  lemma DescriptionStops(s: string, w: nat, x: nat, k: CharClass)
    requires w <= x <= |s|
    requires x == |s| || !InClass(s[x], k)
    ensures forall y :: w <= y <= |s| && AllIn(s, w, y, k) ==> y <= x
  {
  }

  /**
   * A lazy search in general: from `x` on, the first position up to `n` where `hit` holds, stepping
   * only over positions where `cls` holds.
   */
  function FirstHit(n: nat, x: nat, hit: nat -> bool, cls: nat -> bool): (r: Option<nat>)
    requires x <= n
    ensures r.Some? ==> x <= r.value <= n && hit(r.value)
    decreases n - x
  {
    if hit(x) then Some(x)
    else if x < n && cls(x) then FirstHit(n, x + 1, hit, cls)
    else None
  }

  /** `cls` holds at every position from `w` up to `y`. */
  predicate AllHold(cls: nat -> bool, w: nat, y: nat) {
    forall j :: w <= j < y ==> cls(j)
  }

  /** The position the search settles on is reached through the class. */
  lemma {:induction false} FirstHitInClass(n: nat, w: nat, x: nat, hit: nat -> bool, cls: nat -> bool)
    requires w <= x <= n && AllHold(cls, w, x)
    ensures var r := FirstHit(n, x, hit, cls); r.Some? ==> AllHold(cls, w, r.value)
    decreases n - x
  {
    if !hit(x) && x < n && cls(x) {
      FirstHitInClass(n, w, x + 1, hit, cls);
    }
  }

  /** No earlier position is a hit. */
  lemma {:induction false} FirstHitFirst(n: nat, w: nat, x: nat, hit: nat -> bool, cls: nat -> bool)
    requires w <= x <= n && forall y :: w <= y < x ==> !hit(y)
    ensures var r := FirstHit(n, x, hit, cls); r.Some? ==> forall y :: w <= y < r.value ==> !hit(y)
    decreases n - x
  {
    if !hit(x) && x < n && cls(x) {
      FirstHitFirst(n, w, x + 1, hit, cls);
    }
  }

  /** When the search gives up, no position reached through the class is a hit. */
  lemma {:induction false} FirstHitNone(n: nat, w: nat, x: nat, hit: nat -> bool, cls: nat -> bool)
    requires w <= x <= n && AllHold(cls, w, x) && forall y :: w <= y < x ==> !hit(y)
    ensures FirstHit(n, x, hit, cls).None? ==> forall y :: w <= y <= n && AllHold(cls, w, y) ==> !hit(y)
    decreases n - x
  {
    if hit(x) {
    } else if x < n && cls(x) {
      FirstHitNone(n, w, x + 1, hit, cls);
    } else {
      forall y | x < y <= n
        ensures !AllHold(cls, w, y)
      {
        assert !cls(x);
      }
    }
  }

  /** The tail matches at `y`. */
  function TailHit(s: string, t: TailKind): nat -> bool {
    (y: nat) => y <= |s| && TailAt(s, y, t).Some?
  }

  /** The character at `j` may be part of the description. */
  function ClassHit(s: string, t: TailKind): nat -> bool {
    (j: nat) => j < |s| && InClass(s[j], DescClass(t))
  }

  /**
   * The non-greedy description `([^...]*?)` started at `w` and tried up to `x` so far: the first end
   * from which the tail matches, every character before it being in the description's class.
   */
  function FirstTail(s: string, w: nat, x: nat, t: TailKind): (r: Option<nat>)
    requires w <= x <= |s|
    ensures r.Some? ==> x <= r.value <= |s| && TailAt(s, r.value, t).Some?
  {
    FirstHit(|s|, x, TailHit(s, t), ClassHit(s, t))
  }

  lemma ClassHitAllIn(s: string, t: TailKind, w: nat, y: nat)
    requires w <= y <= |s|
    ensures AllHold(ClassHit(s, t), w, y) <==> AllIn(s, w, y, DescClass(t))
  {
    var cls := ClassHit(s, t);
    forall j | w <= j < y
      ensures cls(j) == InClass(s[j], DescClass(t))
    {
    }
  }

  /** What the lazy group settles on: the shortest description after which the tail matches. */
  lemma FirstTailIsShortest(s: string, w: nat, x: nat, t: TailKind)
    requires w <= x <= |s|
    requires AllIn(s, w, x, DescClass(t))
    requires forall y :: w <= y < x ==> TailAt(s, y, t).None?
    ensures var r := FirstTail(s, w, x, t);
      r.Some? ==> AllIn(s, w, r.value, DescClass(t)) && TailAt(s, r.value, t).Some?
    ensures var r := FirstTail(s, w, x, t);
      r.Some? ==> forall y :: w <= y < r.value ==> TailAt(s, y, t).None?
    ensures var r := FirstTail(s, w, x, t);
      r.None? ==> forall y :: w <= y <= |s| && AllIn(s, w, y, DescClass(t)) ==> TailAt(s, y, t).None?
  {
    var hit, cls := TailHit(s, t), ClassHit(s, t);
    ClassHitAllIn(s, t, w, x);
    forall y | w <= y < x
      ensures !hit(y)
    {
    }
    FirstHitInClass(|s|, w, x, hit, cls);
    FirstHitFirst(|s|, w, x, hit, cls);
    FirstHitNone(|s|, w, x, hit, cls);
    var r := FirstTail(s, w, x, t);
    if r.Some? {
      ClassHitAllIn(s, t, w, r.value);
      forall y | w <= y < r.value
        ensures TailAt(s, y, t).None?
      {
        assert !hit(y);
      }
    } else {
      forall y | w <= y <= |s| && AllIn(s, w, y, DescClass(t))
        ensures TailAt(s, y, t).None?
      {
        ClassHitAllIn(s, t, w, y);
        assert !hit(y);
      }
    }
  }

  // ---------------------------------------------------------------------------------------------
  // The patterns

  datatype Header = DepositsHeader | AtmHeader | ChecksHeader | VisaHeader

  datatype BalanceLabel = Beginning | Ending

  datatype Pattern =
    | AccountNumber                 // /Account\s*#?\s*:?\s*(\d+)/i
    | LabelledDate                  // /Statement\s+Date:?\s*([A-Za-z]+\s+\d{1,2},?\s+\d{4})/i
    | AnyDate                       // /([A-Za-z]+\s+\d{1,2},?\s+\d{4})/i
    | Balance(which: BalanceLabel)  // /Beginning\s+Balance:?\s*\$?([\d,]+\.\d{2})/i and Ending
    | Section(header: Header)       // /<header>[\s\S]*?(?=<stop>|<stop>|<stop>|$)/i
    | DepositRow                    // /(\d{2}-\d{2})\s+([^$\d]*?)\s*\$?([\d,]+\.\d{2})/g
    | DebitRow                      // /(\d{2}-\d{2})\s+(\d{2}-\d{2})\s+([^-$]*?)\s*-?\$?([\d,]+\.\d{2})/g
    | CheckRow                      // /(\d{2}-\d{2})\s+(\d+)\s+\$?([\d,]+\.\d{2})\s+(\d+)/g

  /** A match: where it ends and its capture groups, `match[1]`, `match[2]`, ... */
  datatype Match = Match(end: nat, groups: seq<string>)

  function LabelWord(l: BalanceLabel): string {
    if l == Beginning then "beginning" else "ending"
  }

  /** The words whose first later occurrence ends a section (the lookahead alternatives besides `$`). */
  function StopWords(h: Header): seq<string> {
    match h
    case DepositsHeader => ["atm", "checks", "visa"]
    case AtmHeader => ["checks", "visa", "deposits"]
    case ChecksHeader => ["atm", "visa", "deposits"]
    case VisaHeader => ["atm", "checks", "deposits"]
  }

  /** Where the section header starting at `k` ends. */
  function HeaderAt(s: string, k: nat, h: Header): (r: Option<nat>)
    requires k <= |s|
    ensures r.Some? ==> k < r.value <= |s|
  {
    match h
    case DepositsHeader =>
      // Deposits\s*&?\s*Other\s*Credits
      if !CiAt(s, k, "deposits") then None
      else
        var a := RunEnd(s, OptChar(s, RunEnd(s, k + 8, Space), '&'), Space);
        if !CiAt(s, a, "other") then None
        else
          var b := RunEnd(s, a + 5, Space);
          if !CiAt(s, b, "credits") then None else Some(b + 7)
    case AtmHeader =>
      // ATM\s*Withdrawals?\s*&?\s*Debits?
      if !CiAt(s, k, "atm") then None
      else
        var a := RunEnd(s, k + 3, Space);
        if !CiAt(s, a, "withdrawal") then None
        else
          var b := RunEnd(s, OptChar(s, RunEnd(s, Opt(s, a + 10, 's'), Space), '&'), Space);
          if !CiAt(s, b, "debit") then None else Some(Opt(s, b + 5, 's'))
    case ChecksHeader =>
      // Checks?\s*Paid
      if !CiAt(s, k, "check") then None
      else
        var a := RunEnd(s, Opt(s, k + 5, 's'), Space);
        if !CiAt(s, a, "paid") then None else Some(a + 4)
    case VisaHeader =>
      // VISA\s*\/?\s*Check\s*Card\s*Purchases?
      if !CiAt(s, k, "visa") then None
      else
        var a := RunEnd(s, OptChar(s, RunEnd(s, k + 4, Space), '/'), Space);
        if !CiAt(s, a, "check") then None
        else
          var b := RunEnd(s, a + 5, Space);
          if !CiAt(s, b, "card") then None
          else
            var c := RunEnd(s, b + 4, Space);
            if !CiAt(s, c, "purchase") then None else Some(Opt(s, c + 8, 's'))
  }

  predicate StopAt(s: string, p: nat, stops: seq<string>) {
    exists i :: 0 <= i < |stops| && CiAt(s, p, stops[i])
  }

  /** `[\s\S]*?(?=...|$)` from `q`: the first position where a stop word begins, or the end of the text. */
  function SectionEnd(s: string, q: nat, stops: seq<string>): (p: nat)
    requires q <= |s|
    ensures q <= p <= |s|
    ensures p == |s| || StopAt(s, p, stops)
    ensures forall j :: q <= j < p ==> !StopAt(s, j, stops)
    decreases |s| - q
  {
    if q == |s| || StopAt(s, q, stops) then q else SectionEnd(s, q + 1, stops)
  }

  function AccountAt(s: string, k: nat): (r: Option<Match>)
    requires k <= |s|
    ensures r.Some? ==> k < r.value.end <= |s| && |r.value.groups| == 1
  {
    if !CiAt(s, k, "account") then None
    else
      var e := RunEnd(s, OptChar(s, RunEnd(s, OptChar(s, RunEnd(s, k + 7, Space), '#'), Space), ':'), Space);
      var d := RunEnd(s, e, Digit);
      if d == e then None else Some(Match(d, [s[e..d]]))
  }

  function LabelledDateAt(s: string, k: nat): (r: Option<Match>)
    requires k <= |s|
    ensures r.Some? ==> k < r.value.end <= |s| && |r.value.groups| == 1
  {
    if !CiAt(s, k, "statement") then None
    else
      var a := RunEnd(s, k + 9, Space);
      if a == k + 9 || !CiAt(s, a, "date") then None
      else
        var q := RunEnd(s, OptChar(s, a + 4, ':'), Space);
        match LongDateAt(s, q)
        case None => None
        case Some(e) => Some(Match(e, [s[q..e]]))
  }

  function BalanceAt(s: string, k: nat, l: BalanceLabel): (r: Option<Match>)
    requires k <= |s|
    ensures r.Some? ==> k < r.value.end <= |s| && |r.value.groups| == 1
  {
    var w := LabelWord(l);
    if !CiAt(s, k, w) then None
    else
      var a := RunEnd(s, k + |w|, Space);
      if a == k + |w| || !CiAt(s, a, "balance") then None
      else
        var q := OptChar(s, RunEnd(s, OptChar(s, a + 7, ':'), Space), '$');
        match AmountAt(s, q)
        case None => None
        case Some(e) => Some(Match(e, [s[q..e]]))
  }

  /** The description and the amount of a row, read after its dates. */
  datatype RowBody = RowBody(descStart: nat, descEnd: nat, tail: Tail)

  /** `\s+(<description>*?)<tail>` at `p`. */
  function RowBodyAt(s: string, p: nat, t: TailKind): (r: Option<RowBody>)
    requires p <= |s|
    ensures r.Some? ==>
      p < r.value.descStart <= r.value.descEnd <= r.value.tail.amountStart
      && AmountToken(s, r.value.tail.amountStart, r.value.tail.end)
    ensures r.Some? ==>
      AllIn(s, r.value.descStart, r.value.descEnd, DescClass(t)) && NoOuterSpace(s[r.value.descStart..r.value.descEnd])
  {
    var w := RunEnd(s, p, Space);
    if w == p then None
    else
      match FirstTail(s, w, w, t)
      case None => None
      case Some(x) =>
        DescriptionShape(s, w, t);
        Some(RowBody(w, x, TailAt(s, x, t).value))
  }

  function DepositRowAt(s: string, k: nat): (r: Option<Match>)
    requires k <= |s|
    ensures r.Some? ==> k < r.value.end <= |s| && |r.value.groups| == 3
  {
    if !ShortDateAt(s, k) then None
    else
      match RowBodyAt(s, k + 5, CreditTail)
      case None => None
      case Some(b) =>
        Some(Match(b.tail.end, [s[k..k + 5], s[b.descStart..b.descEnd], s[b.tail.amountStart..b.tail.end]]))
  }

  /** `(\d{2}-\d{2})\s+(\d{2}-\d{2})\s+(<description>*?)<tail>` at `k`: the two dates, then the body. */
  function DebitRowAt(s: string, k: nat): (r: Option<Match>)
    requires k <= |s|
    ensures r.Some? ==> k < r.value.end <= |s| && |r.value.groups| == 4
    ensures r.Some? ==> var g := r.value.groups;
      IsShortDate(g[0]) && IsShortDate(g[1]) && NoOuterSpace(g[2]) && NoDashOrDollar(g[2])
      && IsAmountToken(g[3])
  {
    if !ShortDateAt(s, k) then None
    else
      var v := RunEnd(s, k + 5, Space);
      if v == k + 5 || !ShortDateAt(s, v) then None
      else
        match RowBodyAt(s, v + 5, DebitTail)
        case None => None
        case Some(b) =>
          DebitFieldsShape(s, k, v, b);
          Some(Match(b.tail.end, [s[k..k + 5], s[v..v + 5], s[b.descStart..b.descEnd], s[b.tail.amountStart..b.tail.end]]))
  }

  function CheckRowAt(s: string, k: nat): (r: Option<Match>)
    requires k <= |s|
    ensures r.Some? ==> k < r.value.end <= |s| && |r.value.groups| == 4
  {
    if !ShortDateAt(s, k) then None
    else
      var a := RunEnd(s, k + 5, Space);
      var n := RunEnd(s, a, Digit);
      var b := RunEnd(s, n, Space);
      if a == k + 5 || n == a || b == n then None
      else
        var q := OptChar(s, b, '$');
        match AmountAt(s, q)
        case None => None
        case Some(z) =>
          var c := RunEnd(s, z, Space);
          var e := RunEnd(s, c, Digit);
          if c == z || e == c then None
          else Some(Match(e, [s[k..k + 5], s[a..n], s[q..z], s[c..e]]))
  }

  // ---------------------------------------------------------------------------------------------
  // What the row patterns capture

  /** A `DD-DD` date such as `05-15`. */
  predicate IsShortDate(d: string) {
    |d| == 5 && IsDigit(d[0]) && IsDigit(d[1]) && d[2] == '-' && IsDigit(d[3]) && IsDigit(d[4])
  }

  /** An amount token `[\d,]+\.\d{2}` on its own. */
  predicate IsAmountToken(a: string) {
    AmountToken(a, 0, |a|)
  }

  /** A card or ATM description: no `-` and no `$`. */
  predicate NoDashOrDollar(d: string) {
    forall i :: 0 <= i < |d| ==> d[i] != '-' && d[i] != '$'
  }

  /** A deposit description: no `$` and no digit. */
  predicate NoDollarOrDigit(d: string) {
    forall i :: 0 <= i < |d| ==> d[i] != '$' && !IsDigit(d[i])
  }

  lemma SliceAllIn(s: string, w: nat, x: nat, k: CharClass)
    requires w <= x <= |s| && AllIn(s, w, x, k)
    ensures AllIn(s[w..x], 0, x - w, k)
  {
    forall i | 0 <= i < x - w
      ensures InClass(s[w..x][i], k)
    {
      assert s[w..x][i] == s[w + i];
    }
  }

  lemma DebitClassDescription(d: string)
    requires AllIn(d, 0, |d|, NoDashNoDollar)
    ensures NoDashOrDollar(d)
  {
    forall i | 0 <= i < |d|
      ensures d[i] != '-' && d[i] != '$'
    {
      assert InClass(d[i], NoDashNoDollar);
    }
  }

  lemma CreditClassDescription(d: string)
    requires AllIn(d, 0, |d|, NoDollarNoDigit)
    ensures NoDollarOrDigit(d)
  {
    forall i | 0 <= i < |d|
      ensures d[i] != '$' && !IsDigit(d[i])
    {
      assert InClass(d[i], NoDollarNoDigit);
    }
  }

  lemma ShortDateSlice(s: string, k: nat)
    requires ShortDateAt(s, k)
    ensures IsShortDate(s[k..k + 5])
  {
  }

  lemma AmountTokenSlice(s: string, i: nat, z: nat)
    requires AmountToken(s, i, z)
    ensures IsAmountToken(s[i..z])
  {
    var a := s[i..z];
    forall j | 0 <= j < |a| - 3
      ensures InClass(a[j], DigitOrComma)
    {
      assert a[j] == s[i + j];
    }
  }

  /** Spaces before the tail are part of its `\s*`: the tail matches one space earlier as well. */
  lemma TailSkipsSpace(s: string, x: nat, t: TailKind)
    requires 0 < x <= |s| && IsSpace(s[x - 1])
    ensures TailAt(s, x - 1, t) == TailAt(s, x, t)
  {
    assert RunEnd(s, x - 1, Space) == RunEnd(s, x, Space);
  }

  /** Between the description and the amount there are only spaces, at most one `-` and one `$`. */
  lemma TailGap(s: string, x: nat, t: TailKind)
    requires x <= |s| && TailAt(s, x, t).Some?
    ensures forall j :: x <= j < TailAt(s, x, t).value.amountStart ==> IsSpace(s[j]) || s[j] == '-' || s[j] == '$'
  {
  }

  /**
   * The description the lazy group settles on lies in its class and has no space at either end:
   * a trailing space would let the tail match one position earlier.
   */
  lemma DescriptionShape(s: string, w: nat, t: TailKind)
    requires w <= |s| && (w == |s| || !IsSpace(s[w]))
    requires FirstTail(s, w, w, t).Some?
    ensures AllIn(s, w, FirstTail(s, w, w, t).value, DescClass(t))
    ensures NoOuterSpace(s[w..FirstTail(s, w, w, t).value])
  {
    var x := FirstTail(s, w, w, t).value;
    FirstTailIsShortest(s, w, w, t);
    if x > w && IsSpace(s[x - 1]) {
      TailSkipsSpace(s, x, t);
      assert false;
    }
    NoOuterSpaceSlice(s, w, x);
  }

  lemma NoOuterSpaceSlice(s: string, w: nat, x: nat)
    requires w <= x <= |s|
    requires w < x ==> !IsSpace(s[w]) && !IsSpace(s[x - 1])
    ensures NoOuterSpace(s[w..x])
  {
    if w < x {
      assert s[w..x][0] == s[w] && s[w..x][x - w - 1] == s[x - 1];
    }
  }

  /** Between the dates and the amount of a deposit row there is no digit. */
  lemma RowBodyGap(s: string, p: nat)
    requires p <= |s| && RowBodyAt(s, p, CreditTail).Some?
    ensures forall j :: p <= j < RowBodyAt(s, p, CreditTail).value.tail.amountStart ==> !IsDigit(s[j])
  {
    var b := RowBodyAt(s, p, CreditTail).value;
    TailGap(s, b.descEnd, CreditTail);
    forall j | p <= j < b.tail.amountStart
      ensures !IsDigit(s[j])
    {
      if b.descStart <= j < b.descEnd {
        assert InClass(s[j], NoDollarNoDigit);
      }
    }
  }

  /** A deposit row: its date, a description without `$` or digits and without outer spaces, its amount. */
  lemma DepositRowShape(s: string, k: nat, m: Match)
    requires k <= |s| && DepositRowAt(s, k) == Some(m)
    ensures var g := m.groups;
      IsShortDate(g[0]) && NoOuterSpace(g[1]) && NoDollarOrDigit(g[1]) && IsAmountToken(g[2])
  {
    var b := RowBodyAt(s, k + 5, CreditTail).value;
    assert m.groups
      == [s[k..k + 5], s[b.descStart..b.descEnd], s[b.tail.amountStart..b.tail.end]];
    ShortDateSlice(s, k);
    AmountTokenSlice(s, b.tail.amountStart, b.tail.end);
    SliceAllIn(s, b.descStart, b.descEnd, NoDollarNoDigit);
    CreditClassDescription(s[b.descStart..b.descEnd]);
  }

  /**
   * The amount of a deposit row is the first digit run after its date: everything between the
   * date and the amount is free of digits. A row with a reference number before its amount is
   * therefore not read with that amount.
   */
  lemma DepositAmountFirstDigits(s: string, k: nat)
    requires k <= |s| && DepositRowAt(s, k).Some?
    ensures var m := DepositRowAt(s, k).value;
      |m.groups[2]| <= m.end && k + 5 <= m.end - |m.groups[2]|
      && s[m.end - |m.groups[2]|..m.end] == m.groups[2]
      && forall j :: k + 5 <= j < m.end - |m.groups[2]| ==> !IsDigit(s[j])
  {
    RowBodyGap(s, k + 5);
  }

  /** The debit-row pattern is tried by `DebitRowAt`. */
  lemma MatchAtDebitRow(s: string, k: nat)
    requires k <= |s|
    ensures MatchAt(s, k, DebitRow) == DebitRowAt(s, k)
  {
  }

  /** The balance pattern is tried by `BalanceAt`. */
  lemma MatchAtBalance(s: string, k: nat, l: BalanceLabel)
    requires k <= |s|
    ensures MatchAt(s, k, Balance(l)) == BalanceAt(s, k, l)
  {
  }

  lemma DebitFieldsShape(s: string, k: nat, v: nat, b: RowBody)
    requires ShortDateAt(s, k) && ShortDateAt(s, v)
    requires b.descStart <= b.descEnd <= b.tail.amountStart && AmountToken(s, b.tail.amountStart, b.tail.end)
    requires AllIn(s, b.descStart, b.descEnd, NoDashNoDollar) && NoOuterSpace(s[b.descStart..b.descEnd])
    ensures IsShortDate(s[k..k + 5]) && IsShortDate(s[v..v + 5])
    ensures NoDashOrDollar(s[b.descStart..b.descEnd]) && IsAmountToken(s[b.tail.amountStart..b.tail.end])
  {
    ShortDateSlice(s, k);
    ShortDateSlice(s, v);
    AmountTokenSlice(s, b.tail.amountStart, b.tail.end);
    SliceAllIn(s, b.descStart, b.descEnd, NoDashNoDollar);
    DebitClassDescription(s[b.descStart..b.descEnd]);
  }

  /** A check row: its date, a check number and a reference number of digits, its amount. */
  lemma CheckRowShape(s: string, k: nat, m: Match)
    requires k <= |s| && CheckRowAt(s, k) == Some(m)
    ensures var g := m.groups;
      IsShortDate(g[0]) && g[1] != "" && AllDigits(g[1]) && IsAmountToken(g[2])
      && g[3] != "" && AllDigits(g[3])
  {
    var a := RunEnd(s, k + 5, Space);
    var n := RunEnd(s, a, Digit);
    var b := RunEnd(s, n, Space);
    var q := OptChar(s, b, '$');
    var z := AmountAt(s, q).value;
    var c := RunEnd(s, z, Space);
    var e := RunEnd(s, c, Digit);
    assert m.groups == [s[k..k + 5], s[a..n], s[q..z], s[c..e]];
    ShortDateSlice(s, k);
    AmountTokenSlice(s, q, z);
    SliceAllIn(s, a, n, Digit);
    DigitClassAll(s[a..n]);
    SliceAllIn(s, c, e, Digit);
    DigitClassAll(s[c..e]);
  }

  lemma DigitClassAll(d: string)
    requires AllIn(d, 0, |d|, Digit)
    ensures AllDigits(d)
  {
    forall i | 0 <= i < |d|
      ensures IsDigit(d[i])
    {
      assert InClass(d[i], Digit);
    }
  }

  // ---------------------------------------------------------------------------------------------
  // What the account and balance patterns capture

  /** The separator `\s*#?\s*:?\s*` allows only spaces, `#` and `:`. */
  predicate IsAccountSeparator(c: char) {
    IsSpace(c) || c == '#' || c == ':'
  }

  /**
   * An account number follows the word `account` and a separator of spaces, `#` and `:`; it is
   * the whole digit run there.
   */
  lemma AccountShape(s: string, k: nat)
    requires k <= |s| && AccountAt(s, k).Some?
    ensures CiAt(s, k, "account")
    ensures var m := AccountAt(s, k).value; var e := m.end - |m.groups[0]|;
      k + 7 <= e < m.end && s[e..m.end] == m.groups[0] && AllDigits(m.groups[0])
      && (m.end == |s| || !IsDigit(s[m.end]))
      && forall j :: k + 7 <= j < e ==> IsAccountSeparator(s[j])
  {
    var e1 := RunEnd(s, k + 7, Space);
    var o1 := OptChar(s, e1, '#');
    var e2 := RunEnd(s, o1, Space);
    var o2 := OptChar(s, e2, ':');
    var e := RunEnd(s, o2, Space);
    var d := RunEnd(s, e, Digit);
    assert AccountAt(s, k).value == Match(d, [s[e..d]]);
    SliceAllIn(s, e, d, Digit);
    DigitClassAll(s[e..d]);
    forall j | k + 7 <= j < e
      ensures IsAccountSeparator(s[j])
    {
      if j < e1 {
        assert InClass(s[j], Space);
      } else if o1 <= j < e2 {
        assert InClass(s[j], Space);
      } else if o2 <= j {
        assert InClass(s[j], Space);
      }
    }
  }

  /**
   * After `account` and its separator, a letter ends every chance of a match: `Account Number:`
   * followed by digits is not an account number at that position.
   */
  lemma AccountWordNotNumber(s: string, k: nat, j: nat)
    requires CiAt(s, k, "account") && k + 7 <= j < |s|
    requires forall i :: k + 7 <= i < j ==> IsAccountSeparator(s[i])
    requires IsAsciiLetter(s[j])
    ensures AccountAt(s, k).None?
  {
    if AccountAt(s, k).Some? {
      AccountShape(s, k);
      assert false;
    }
  }

  /** The balance labels as statements print them. */
  function LabelText(l: BalanceLabel): string {
    if l == Beginning then "Beginning" else "Ending"
  }

  lemma LabelTextMatches(l: BalanceLabel)
    ensures |LabelText(l)| == |LabelWord(l)| && LowerStr(LabelText(l)) == LabelWord(l)
  {
    var r := LowerStr(LabelText(l));
    if l == Beginning {
      assert r[0] == 'b' && r[1] == 'e' && r[2] == 'g' && r[3] == 'i' && r[4] == 'n';
      assert r[5] == 'n' && r[6] == 'i' && r[7] == 'n' && r[8] == 'g';
    } else {
      assert r[0] == 'e' && r[1] == 'n' && r[2] == 'd' && r[3] == 'i' && r[4] == 'n' && r[5] == 'g';
    }
  }

  lemma BalanceWordMatches()
    ensures LowerStr("Balance") == "balance"
  {
    var r := LowerStr("Balance");
    assert r[0] == 'b' && r[1] == 'a' && r[2] == 'l' && r[3] == 'a' && r[4] == 'n' && r[5] == 'c' && r[6] == 'e';
  }

  lemma AmountTokenShift(s: string, q: nat, g: string)
    requires q + |g| <= |s| && s[q..q + |g|] == g && IsAmountToken(g)
    ensures AmountToken(s, q, q + |g|)
  {
    forall j | q <= j < q + |g| - 3
      ensures InClass(s[j], DigitOrComma)
    {
      assert s[j] == g[j - q];
    }
    assert s[q + |g| - 3] == g[|g| - 3] && s[q + |g| - 2] == g[|g| - 2] && s[q + |g| - 1] == g[|g| - 1];
  }

  /** ` Balance: $` after the label word, scanned as the balance pattern scans it. */
  lemma BalanceSeparator(s: string, n: nat)
    requires n + 11 <= |s| && s[n..n + 11] == " Balance: $"
    ensures RunEnd(s, n, Space) == n + 1 && CiAt(s, n + 1, "balance")
    ensures OptChar(s, RunEnd(s, OptChar(s, n + 8, ':'), Space), '$') == n + 11
  {
    var sep := " Balance: $";
    forall i | 0 <= i < 11
      ensures s[n + i] == sep[i]
    {
      assert s[n..n + 11][i] == s[n + i];
    }
    assert s[n] == sep[0] && s[n + 1] == sep[1];
    assert RunEnd(s, n + 1, Space) == n + 1;
    assert s[n + 1..n + 8] == "Balance" by {
      forall i | 0 <= i < 7
        ensures s[n + 1..n + 8][i] == "Balance"[i]
      {
        assert s[n + 1 + i] == sep[1 + i];
      }
    }
    BalanceWordMatches();
    assert s[n + 8] == sep[8] && s[n + 9] == sep[9] && s[n + 10] == sep[10];
    assert RunEnd(s, n + 10, Space) == n + 10;
  }

  lemma ConcatSlices(a: string, b: string, c: string, d: string)
    ensures var s := a + b + c + d;
      s[..|a|] == a && s[|a|..|a| + |b|] == b && s[|a| + |b|..|a| + |b| + |c|] == c
  {
  }

  /** `s` starts with `t`, ` Balance: $` and then `g`. */
  predicate BalanceLayout(s: string, t: string, g: string) {
    |t| + 11 + |g| <= |s| && s[..|t|] == t && s[|t|..|t| + 11] == " Balance: $" && s[|t| + 11..|t| + 11 + |g|] == g
  }

  /** `t` spells the label's word in any mix of cases, as the `/i` flag accepts it. */
  predicate SpellsLabel(t: string, l: BalanceLabel) {
    |t| == |LabelWord(l)| && LowerStr(t) == LabelWord(l)
  }

  /** A label, ` Balance: $` and an amount token at the start of `s` are read as that token. */
  lemma BalanceAtStart(s: string, l: BalanceLabel, t: string, g: string)
    requires SpellsLabel(t, l) && BalanceLayout(s, t, g) && IsAmountToken(g)
    ensures BalanceAt(s, 0, l) == Some(Match(|t| + 11 + |g|, [g]))
  {
    var w := LabelWord(l);
    assert s[0..|w|] == t;
    assert CiAt(s, 0, w);
    BalanceSeparator(s, |t|);
    var q := |t| + 11;
    AmountTokenShift(s, q, g);
    assert AmountAt(s, q) == Some(q + |g|);
    assert s[q..q + |g|] == g;
  }

  lemma BalanceTextLayout(t: string, g: string, rest: string)
    ensures BalanceLayout(t + " Balance: $" + g + rest, t, g)
  {
    ConcatSlices(t, " Balance: $", g, rest);
  }

  /**
   * A balance label in any case, then ` Balance: $` and an amount token, is read as that amount,
   * whatever follows it.
   */
  lemma BalanceReadsToken(l: BalanceLabel, t: string, g: string, rest: string)
    requires SpellsLabel(t, l) && IsAmountToken(g)
    ensures BalanceAt(t + " Balance: $" + g + rest, 0, l) == Some(Match(|t| + 11 + |g|, [g]))
  {
    BalanceTextLayout(t, g, rest);
    BalanceAtStart(t + " Balance: $" + g + rest, l, t, g);
  }

  // ---------------------------------------------------------------------------------------------
  // Reading whole fields

  /** A run of `k` written out at `i` and followed by a character outside `k` is what `k*` consumes. */
  lemma RunOver(s: string, i: nat, w: string, k: CharClass)
    requires i + |w| <= |s| && s[i..i + |w|] == w
    requires forall j :: 0 <= j < |w| ==> InClass(w[j], k)
    requires i + |w| == |s| || !InClass(s[i + |w|], k)
    ensures RunEnd(s, i, k) == i + |w|
  {
    forall j | i <= j < i + |w|
      ensures InClass(s[j], k)
    {
      assert s[j] == w[j - i];
    }
    MaxRunUnique(s, i, i + |w|, k);
  }

  /** The parts of a long date: a month name, a day of one or two digits and a four-digit year. */
  predicate DateParts(month: string, day: string, year: string) {
    month != [] && (forall i :: 0 <= i < |month| ==> IsAsciiLetter(month[i]))
    && 1 <= |day| <= 2 && AllDigits(day) && |year| == 4 && AllDigits(year)
  }

  /** `January 5, 2024` as a statement writes it. */
  function DateText(month: string, day: string, year: string): string {
    month + " " + day + ", " + year
  }

  /** A piece of a string written at `q` is the same piece of `s`. */
  lemma SubSlice(s: string, q: nat, d: string, i: nat, j: nat)
    requires q + |d| <= |s| && s[q..q + |d|] == d && i <= j <= |d|
    ensures s[q + i..q + j] == d[i..j]
  {
    forall t | 0 <= t < j - i
      ensures s[q + i..q + j][t] == d[i..j][t]
    {
      assert s[q + i + t] == s[q..q + |d|][i + t];
    }
  }

  lemma DateTextLayout(month: string, day: string, year: string)
    ensures var d, n := DateText(month, day, year), |month| + 1 + |day|;
      |d| == n + 2 + |year| && d[..|month|] == month && d[|month|] == ' ' && d[|month| + 1..n] == day
      && d[n] == ',' && d[n + 1] == ' ' && d[n + 2..] == year
  {
    ConcatSlices(month + " ", day, ", ", year);
  }

  /** Where the parts of a long date written at `q` lie. */
  lemma DateLayout(s: string, q: nat, month: string, day: string, year: string)
    requires q + |DateText(month, day, year)| <= |s| && s[q..q + |DateText(month, day, year)|] == DateText(month, day, year)
    ensures var l := q + |month|; var c := l + 1 + |day|;
      s[q..l] == month && s[l] == ' ' && s[l + 1..c] == day && s[c] == ',' && s[c + 1] == ' '
      && s[c + 2..c + 2 + |year|] == year && c + 2 + |year| == q + |DateText(month, day, year)|
  {
    var d := DateText(month, day, year);
    var n := |month| + 1 + |day|;
    DateTextLayout(month, day, year);
    SubSlice(s, q, d, 0, |month|);
    SubSlice(s, q, d, |month| + 1, n);
    SubSlice(s, q, d, n + 2, |d|);
    assert s[q + |month|] == d[|month|];
    assert s[q + n] == d[n] && s[q + n + 1] == d[n + 1];
  }

  /** The month and the day of a long date written at `q`, scanned as the date pattern scans them. */
  lemma MonthDayScan(s: string, q: nat, month: string, day: string, year: string)
    requires DateParts(month, day, year)
    requires q + |DateText(month, day, year)| <= |s| && s[q..q + |DateText(month, day, year)|] == DateText(month, day, year)
    ensures var l := q + |month|; var m := l + 1;
      && RunEnd(s, q, Letter) == l && RunEnd(s, l, Space) == m && m < |s| && IsDigit(s[m])
      && (if m + 1 < |s| && IsDigit(s[m + 1]) then m + 2 else m + 1) == m + |day|
  {
    DateLayout(s, q, month, day, year);
    var l := q + |month|;
    var m := l + 1;
    forall j | 0 <= j < |month|
      ensures InClass(month[j], Letter)
    {
    }
    RunOver(s, q, month, Letter);
    assert s[m] == day[0];
    assert RunEnd(s, l, Space) == m;
    if |day| == 2 {
      assert s[m + 1] == day[1];
    }
  }

  /** The comma and the year of a long date written at `q`, scanned as the date pattern scans them. */
  lemma YearScan(s: string, q: nat, month: string, day: string, year: string)
    requires DateParts(month, day, year)
    requires q + |DateText(month, day, year)| <= |s| && s[q..q + |DateText(month, day, year)|] == DateText(month, day, year)
    ensures var c := q + |month| + 1 + |day|; var n := c + 2;
      && OptChar(s, c, ',') == c + 1 && RunEnd(s, c + 1, Space) == n
      && n + 4 == q + |DateText(month, day, year)| && AllDigits(s[n..n + 4])
  {
    DateLayout(s, q, month, day, year);
    var n := q + |month| + 1 + |day| + 2;
    assert s[n] == year[0];
    assert RunEnd(s, n - 1, Space) == n;
  }

  /** A long date written at `q` is read in full by the date pattern. */
  lemma LongDateReads(s: string, q: nat, month: string, day: string, year: string)
    requires DateParts(month, day, year)
    requires q + |DateText(month, day, year)| <= |s| && s[q..q + |DateText(month, day, year)|] == DateText(month, day, year)
    ensures LongDateAt(s, q) == Some(q + |DateText(month, day, year)|)
  {
    MonthDayScan(s, q, month, day, year);
    YearScan(s, q, month, day, year);
  }

  lemma StatementWordMatches()
    ensures LowerStr("Statement") == "statement" && LowerStr("Date") == "date"
  {
    var r := LowerStr("Statement");
    assert r[0] == 's' && r[1] == 't' && r[2] == 'a' && r[3] == 't' && r[4] == 'e';
    assert r[5] == 'm' && r[6] == 'e' && r[7] == 'n' && r[8] == 't';
    var u := LowerStr("Date");
    assert u[0] == 'd' && u[1] == 'a' && u[2] == 't' && u[3] == 'e';
  }

  /** `Statement Date: <date>` is read as that date, whatever follows it. */
  lemma LabelledDateReads(month: string, day: string, year: string, rest: string)
    requires DateParts(month, day, year)
    ensures var d := DateText(month, day, year);
      LabelledDateAt("Statement Date: " + d + rest, 0) == Some(Match(16 + |d|, [d]))
  {
    var d := DateText(month, day, year);
    var s := "Statement Date: " + d + rest;
    ConcatSlices("Statement", " Date: ", d, rest);
    LabelledDateAtStart(s, month, day, year);
  }

  /** `Statement Date: ` at the start of `s`, scanned as the labelled-date pattern scans it. */
  lemma StatementLabelScan(s: string)
    requires 16 <= |s| && s[..9] == "Statement" && s[9..16] == " Date: "
    ensures CiAt(s, 0, "statement") && RunEnd(s, 9, Space) == 10 && CiAt(s, 10, "date")
    ensures OptChar(s, 14, ':') == 15 && RunEnd(s, 15, Space) == RunEnd(s, 16, Space)
  {
    var lab := " Date: ";
    forall i | 0 <= i < 7
      ensures s[9 + i] == lab[i]
    {
      assert s[9..16][i] == s[9 + i];
    }
    StatementWordMatches();
    assert s[9] == lab[0] && s[10] == lab[1];
    assert RunEnd(s, 10, Space) == 10;
    assert s[10..14] == "Date" by {
      forall i | 0 <= i < 4
        ensures s[10..14][i] == "Date"[i]
      {
        assert s[10 + i] == lab[1 + i];
      }
    }
    assert s[14] == lab[5] && s[15] == lab[6];
  }

  lemma LabelledDateAtStart(s: string, month: string, day: string, year: string)
    requires DateParts(month, day, year)
    requires 16 + |DateText(month, day, year)| <= |s| && s[..9] == "Statement" && s[9..16] == " Date: "
    requires s[16..16 + |DateText(month, day, year)|] == DateText(month, day, year)
    ensures LabelledDateAt(s, 0) == Some(Match(16 + |DateText(month, day, year)|, [DateText(month, day, year)]))
  {
    StatementLabelScan(s);
    LongDateReads(s, 16, month, day, year);
    assert !IsSpace(s[16]) by {
      assert s[16] == DateText(month, day, year)[0] == month[0];
    }
    assert RunEnd(s, 16, Space) == 16;
  }

  lemma AccountWordMatches()
    ensures LowerStr("Account") == "account" && LowerStr("Number") == "number"
  {
    var r := LowerStr("Account");
    assert r[0] == 'a' && r[1] == 'c' && r[2] == 'c' && r[3] == 'o' && r[4] == 'u' && r[5] == 'n' && r[6] == 't';
    var u := LowerStr("Number");
    assert u[0] == 'n' && u[1] == 'u' && u[2] == 'm' && u[3] == 'b' && u[4] == 'e' && u[5] == 'r';
  }

  /** `Account # <digits>` is read as those digits when no further digit follows them. */
  lemma AccountReads(digits: string, rest: string)
    requires digits != [] && AllDigits(digits) && (rest == [] || !IsDigit(rest[0]))
    ensures AccountAt("Account # " + digits + rest, 0) == Some(Match(10 + |digits|, [digits]))
  {
    var s := "Account # " + digits + rest;
    ConcatSlices("Account", " # ", digits, rest);
    AccountAtStart(s, digits);
  }

  lemma AccountAtStart(s: string, digits: string)
    requires 10 + |digits| <= |s| && s[..7] == "Account" && s[7..10] == " # " && s[10..10 + |digits|] == digits
    requires digits != [] && AllDigits(digits) && (10 + |digits| == |s| || !IsDigit(s[10 + |digits|]))
    ensures AccountAt(s, 0) == Some(Match(10 + |digits|, [digits]))
  {
    AccountWordMatches();
    assert s[7] == ' ' && s[8] == '#' && s[9] == ' ' && s[10] == digits[0];
    assert RunEnd(s, 8, Space) == 8;
    assert RunEnd(s, 10, Space) == 10;
    forall j | 0 <= j < |digits|
      ensures InClass(digits[j], Digit)
    {
    }
    RunOver(s, 10, digits, Digit);
  }

  /**
   * `Account Number: <digits>` is not an account number at the word `Account`, although the
   * parser's own comments name it as one of the two supported forms.
   */
  lemma AccountNumberLabelMissed(digits: string, rest: string)
    ensures AccountAt("Account Number: " + digits + rest, 0).None?
  {
    var s := "Account Number: " + digits + rest;
    assert s[..7] == "Account" && s[7] == ' ' && s[8] == 'N';
    AccountWordMatches();
    AccountWordNotNumber(s, 0, 8);
  }

  /**
   * The account pattern extended by the optional word its comments expect,
   * `/Account\s*(?:Number)?\s*#?\s*:?\s*(\d+)/i`.
   */
  function CorrectedAccountAt(s: string, k: nat): (r: Option<Match>)
    requires k <= |s|
    ensures r.Some? ==> k < r.value.end <= |s| && |r.value.groups| == 1
  {
    if !CiAt(s, k, "account") then None
    else
      var b := RunEnd(s, k + 7, Space);
      var a := if CiAt(s, b, "number") then b + 6 else b;
      var e := RunEnd(s, OptChar(s, RunEnd(s, OptChar(s, RunEnd(s, a, Space), '#'), Space), ':'), Space);
      var d := RunEnd(s, e, Digit);
      if d == e then None else Some(Match(d, [s[e..d]]))
  }

  /** The corrected pattern finds every account number the pattern as written finds, unchanged. */
  lemma CorrectedAccountExtends(s: string, k: nat)
    requires k <= |s| && AccountAt(s, k).Some?
    ensures CorrectedAccountAt(s, k) == AccountAt(s, k)
  {
    var b := RunEnd(s, k + 7, Space);
    assert RunEnd(s, b, Space) == b;
    if CiAt(s, b, "number") {
      assert false;
    }
  }

  /** The corrected pattern reads `Account Number: <digits>`. */
  lemma CorrectedAccountReadsLabel(digits: string, rest: string)
    requires digits != [] && AllDigits(digits) && (rest == [] || !IsDigit(rest[0]))
    ensures CorrectedAccountAt("Account Number: " + digits + rest, 0) == Some(Match(16 + |digits|, [digits]))
  {
    var s := "Account Number: " + digits + rest;
    ConcatSlices("Account", " Number: ", digits, rest);
    CorrectedAccountAtStart(s, digits);
  }

  lemma CorrectedAccountAtStart(s: string, digits: string)
    requires 16 + |digits| <= |s| && s[..7] == "Account" && s[7..16] == " Number: " && s[16..16 + |digits|] == digits
    requires digits != [] && AllDigits(digits) && (16 + |digits| == |s| || !IsDigit(s[16 + |digits|]))
    ensures CorrectedAccountAt(s, 0) == Some(Match(16 + |digits|, [digits]))
  {
    AccountWordMatches();
    assert s[7] == ' ' && s[8] == 'N';
    assert RunEnd(s, 8, Space) == 8;
    assert s[8..14] == "Number" by {
      assert s[9] == 'u' && s[10] == 'm' && s[11] == 'b' && s[12] == 'e' && s[13] == 'r';
    }
    assert s[14] == ':' && s[15] == ' ' && s[16] == digits[0];
    assert RunEnd(s, 14, Space) == 14;
    assert RunEnd(s, 16, Space) == 16;
    forall j | 0 <= j < |digits|
      ensures InClass(digits[j], Digit)
    {
    }
    RunOver(s, 16, digits, Digit);
  }

  /** Whether `p` matches at `k` exactly, with its groups: the anchored step of `RegExp.prototype.exec`. */
  function MatchAt(s: string, k: nat, p: Pattern): (r: Option<Match>)
    requires k <= |s|
    ensures r.Some? ==> k < r.value.end <= |s|
  {
    match p
    case AccountNumber => AccountAt(s, k)
    case LabelledDate => LabelledDateAt(s, k)
    case AnyDate =>
      (match LongDateAt(s, k)
       case None => None
       case Some(e) => Some(Match(e, [s[k..e]])))
    case Balance(l) => BalanceAt(s, k, l)
    case Section(h) =>
      (match HeaderAt(s, k, h)
       case None => None
       case Some(e) => Some(Match(SectionEnd(s, e, StopWords(h)), [])))
    case DepositRow => DepositRowAt(s, k)
    case DebitRow => DebitRowAt(s, k)
    case CheckRow => CheckRowAt(s, k)
  }

  // ---------------------------------------------------------------------------------------------
  // Searching: `exec` and the global-flag loop

  datatype Found = Found(start: nat, m: Match)

  /**
   * What a pattern gives at each position of a text of length `n`, as a function of the position:
   * every match ends after the position it starts at and inside the text.
   */
  ghost predicate Advancing(n: nat, at: nat -> Option<Match>) {
    forall k: nat :: k <= n && at(k).Some? ==> k < at(k).value.end <= n
  }

  /** The search `exec` does, for any `at`: the leftmost position from `from` up to `n` that gives a match. */
  function ExecAt(n: nat, from: nat, at: nat -> Option<Match>): (r: Option<Found>)
    ensures r.Some? ==> from <= r.value.start <= n && at(r.value.start) == Some(r.value.m)
    ensures r.Some? ==> forall k :: from <= k < r.value.start ==> at(k).None?
    ensures r.None? ==> forall k :: from <= k <= n ==> at(k).None?
    decreases n - from
  {
    if from > n then None
    else if at(from).Some? then Some(Found(from, at(from).value))
    else if from == n then None
    else ExecAt(n, from + 1, at)
  }

  /** The loop over `ExecAt`: every search resumes where the previous match ended. */
  function MatchesAt(n: nat, from: nat, at: nat -> Option<Match>): seq<Found>
    requires Advancing(n, at)
    decreases n - from
  {
    match ExecAt(n, from, at)
    case None => []
    case Some(f) => [f] + MatchesAt(n, f.m.end, at)
  }

  /** A match found by the search is leftmost from `lo`. */
  predicate LeftmostAt(n: nat, lo: nat, f: Found, at: nat -> Option<Match>) {
    lo <= f.start <= n && at(f.start) == Some(f.m) && forall k :: lo <= k < f.start ==> at(k).None?
  }

  function ResumeAt(r: seq<Found>, from: nat, i: nat): nat
    requires i <= |r|
  {
    if i == 0 then from else r[i - 1].m.end
  }

  lemma {:induction false} MatchesAtLeftmost(n: nat, from: nat, at: nat -> Option<Match>, i: nat)
    requires Advancing(n, at) && i < |MatchesAt(n, from, at)|
    ensures LeftmostAt(n, ResumeAt(MatchesAt(n, from, at), from, i), MatchesAt(n, from, at)[i], at)
    decreases n - from
  {
    var f := ExecAt(n, from, at).value;
    var rest := MatchesAt(n, f.m.end, at);
    assert MatchesAt(n, from, at) == [f] + rest;
    if i > 0 {
      MatchesAtLeftmost(n, f.m.end, at, i - 1);
      assert ResumeAt(MatchesAt(n, from, at), from, i) == ResumeAt(rest, f.m.end, i - 1);
    }
  }

  lemma {:induction false} MatchesAtExhaustive(n: nat, from: nat, at: nat -> Option<Match>)
    requires Advancing(n, at)
    ensures forall k :: ResumeAt(MatchesAt(n, from, at), from, |MatchesAt(n, from, at)|) <= k <= n ==> at(k).None?
    decreases n - from
  {
    match ExecAt(n, from, at)
    case None =>
    case Some(f) =>
      MatchesAtExhaustive(n, f.m.end, at);
      var rest := MatchesAt(n, f.m.end, at);
      assert MatchesAt(n, from, at) == [f] + rest;
      assert ResumeAt(MatchesAt(n, from, at), from, |MatchesAt(n, from, at)|) == ResumeAt(rest, f.m.end, |rest|);
  }

  /** The visited matches, in order, inside the text from `lo` on and without overlapping. */
  predicate Chained(r: seq<Found>, lo: nat, n: nat) {
    && (forall i :: 0 <= i < |r| ==> lo <= r[i].start < r[i].m.end <= n)
    && (forall i :: 0 <= i < |r| - 1 ==> r[i].m.end <= r[i + 1].start)
  }

  lemma ChainedCons(f: Found, rest: seq<Found>, lo: nat, n: nat)
    requires lo <= f.start < f.m.end <= n && Chained(rest, f.m.end, n)
    ensures Chained([f] + rest, lo, n)
  {
    var r := [f] + rest;
    forall i | 0 <= i < |r| - 1
      ensures r[i].m.end <= r[i + 1].start
    {
      assert r[i + 1] == rest[i];
      if i > 0 {
        assert r[i] == rest[i - 1];
      }
    }
  }

  lemma {:induction false} MatchesAtChained(n: nat, from: nat, at: nat -> Option<Match>)
    requires Advancing(n, at)
    ensures Chained(MatchesAt(n, from, at), from, n)
    decreases n - from
  {
    match ExecAt(n, from, at)
    case None =>
    case Some(f) =>
      assert MatchesAt(n, from, at) == [f] + MatchesAt(n, f.m.end, at);
      MatchesAtChained(n, f.m.end, at);
      ChainedCons(f, MatchesAt(n, f.m.end, at), from, n);
  }

  /** The pattern tried at each position of `s`. */
  function Matcher(s: string, p: Pattern): nat -> Option<Match> {
    (k: nat) => if k <= |s| then MatchAt(s, k, p) else None
  }

  lemma MatcherAt(s: string, p: Pattern, k: nat)
    requires k <= |s|
    ensures Matcher(s, p)(k) == MatchAt(s, k, p)
  {
  }

  lemma MatcherAdvances(s: string, p: Pattern)
    ensures Advancing(|s|, Matcher(s, p))
  {
    forall k: nat | k <= |s| && Matcher(s, p)(k).Some?
      ensures k < Matcher(s, p)(k).value.end <= |s|
    {
      MatcherAt(s, p, k);
    }
  }

  /** `exec` from `lastIndex` `from`: the leftmost position at or after `from` where the pattern matches. */
  function Exec(s: string, from: nat, p: Pattern): (r: Option<Found>)
    ensures r.Some? ==> from <= r.value.start < r.value.m.end <= |s|
    ensures r.Some? ==> MatchAt(s, r.value.start, p) == Some(r.value.m)
    ensures r.Some? ==> forall k :: from <= k < r.value.start ==> MatchAt(s, k, p).None?
    ensures r.None? ==> forall k :: from <= k <= |s| ==> MatchAt(s, k, p).None?
  {
    var r := ExecAt(|s|, from, Matcher(s, p));
    assert r.Some? ==> from <= r.value.start < r.value.m.end <= |s| && MatchAt(s, r.value.start, p) == Some(r.value.m) by {
      if r.Some? {
        MatcherAt(s, p, r.value.start);
      }
    }
    assert r.Some? ==> forall k :: from <= k < r.value.start ==> MatchAt(s, k, p).None? by {
      if r.Some? {
        forall k | from <= k < r.value.start
          ensures MatchAt(s, k, p).None?
        {
          MatcherAt(s, p, k);
        }
      }
    }
    assert r.None? ==> forall k :: from <= k <= |s| ==> MatchAt(s, k, p).None? by {
      if r.None? {
        forall k | from <= k <= |s|
          ensures MatchAt(s, k, p).None?
        {
          MatcherAt(s, p, k);
        }
      }
    }
    r
  }

  /** `text.match(p)` without the global flag. */
  function FirstMatch(s: string, p: Pattern): Option<Found> {
    Exec(s, 0, p)
  }

  /**
   * The matches a `while ((m = p.exec(s)) !== null)` loop visits with `lastIndex` starting at `from`:
   * every search resumes where the previous match ended.
   */
  function Matches(s: string, from: nat, p: Pattern): (r: seq<Found>)
  {
    MatcherAdvances(s, p);
    MatchesAt(|s|, from, Matcher(s, p))
  }

  /** One turn of the loop: the first match visited, then the ones visited from where it ended. */
  lemma MatchesStep(s: string, from: nat, p: Pattern, f: Found)
    requires Exec(s, from, p) == Some(f)
    ensures Matches(s, from, p) == [f] + Matches(s, f.m.end, p)
  {
    MatcherAdvances(s, p);
    assert ExecAt(|s|, from, Matcher(s, p)) == Some(f);
  }

  /** The matches the loop visits, each one found by `exec` from where the previous one ended. */
  predicate LeftmostFrom(s: string, lo: nat, f: Found, p: Pattern) {
    lo <= f.start <= |s| && MatchAt(s, f.start, p) == Some(f.m)
    && forall k :: lo <= k < f.start ==> MatchAt(s, k, p).None?
  }

  /** Each visited match is the leftmost one at or after the end of the previous one (or `from`). */
  lemma MatchesLeftmost(s: string, from: nat, p: Pattern, i: nat)
    requires i < |Matches(s, from, p)|
    ensures LeftmostFrom(s, ResumeAt(Matches(s, from, p), from, i), Matches(s, from, p)[i], p)
  {
    MatcherAdvances(s, p);
    var r := Matches(s, from, p);
    MatchesAtLeftmost(|s|, from, Matcher(s, p), i);
    var lo := ResumeAt(r, from, i);
    MatcherAt(s, p, r[i].start);
    forall k | lo <= k < r[i].start
      ensures MatchAt(s, k, p).None?
    {
      MatcherAt(s, p, k);
    }
  }

  /** No match starts after the last visited one: the loop stops only when `exec` finds nothing. */
  lemma MatchesExhaustive(s: string, from: nat, p: Pattern)
    ensures forall k :: ResumeAt(Matches(s, from, p), from, |Matches(s, from, p)|) <= k <= |s| ==>
      MatchAt(s, k, p).None?
  {
    MatcherAdvances(s, p);
    var r := Matches(s, from, p);
    MatchesAtExhaustive(|s|, from, Matcher(s, p));
    forall k | ResumeAt(r, from, |r|) <= k <= |s|
      ensures MatchAt(s, k, p).None?
    {
      MatcherAt(s, p, k);
    }
  }

  /** The visited matches lie inside the text and follow one another without overlapping. */
  lemma MatchesOrdered(s: string, from: nat, p: Pattern, i: nat)
    requires i < |Matches(s, from, p)|
    ensures from <= Matches(s, from, p)[i].start < Matches(s, from, p)[i].m.end <= |s|
    ensures i + 1 < |Matches(s, from, p)| ==> Matches(s, from, p)[i].m.end <= Matches(s, from, p)[i + 1].start
  {
    MatcherAdvances(s, p);
    MatchesAtChained(|s|, from, Matcher(s, p));
  }
}
