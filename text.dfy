/** Character classes and the string operations of JavaScript and Python that the model relies on. */
module Text {
  import opened Wrappers

  // ---------------------------------------------------------------------------------------------
  // Character classes

  /** `\d` in a JavaScript or Python regular expression. */
  predicate IsDigit(c: char) { '0' <= c <= '9' }

  /** `[A-Za-z]`. */
  predicate IsAsciiLetter(c: char) { 'A' <= c <= 'Z' || 'a' <= c <= 'z' }

  /** `\s` in a JavaScript regular expression; `String.prototype.trim` removes exactly these characters. */
  predicate IsSpace(c: char) {
    var n := c as int;
    (9 <= n <= 13) || n == 0x20 || n == 0xA0 || n == 0x1680 || (0x2000 <= n <= 0x200A)
    || n == 0x2028 || n == 0x2029 || n == 0x202F || n == 0x205F || n == 0x3000 || n == 0xFEFF
  }

  /**
   * Folding of the ASCII capitals, which is all that the `/i` flag folds in the patterns modelled
   * here. `toLowerCase` and `lower()` also fold other capitals, such as `É`; for them this is an
   * approximation that agrees on ASCII text.
   */
  function Lower(c: char): (r: char)
    ensures !('A' <= r <= 'Z')
    ensures 'A' <= c <= 'Z' || r == c
  {
    if 'A' <= c <= 'Z' then (c as int + 32) as char else c
  }

  function LowerStr(s: string): (r: string)
    ensures |r| == |s|
    ensures forall i :: 0 <= i < |s| ==> r[i] == Lower(s[i])
  {
    seq(|s|, i requires 0 <= i < |s| => Lower(s[i]))
  }

  lemma LowerStrAppend(a: string, b: string)
    ensures LowerStr(a + b) == LowerStr(a) + LowerStr(b)
  {
    assert forall i :: 0 <= i < |a + b| ==> LowerStr(a + b)[i] == (LowerStr(a) + LowerStr(b))[i];
  }

  // ---------------------------------------------------------------------------------------------
  // Searching

  predicate OccursAt(s: string, w: string, k: int) {
    0 <= k && k + |w| <= |s| && s[k..k + |w|] == w
  }

  /** The first occurrence of `w` in `s` at or after `i` (`s.indexOf(w, i)`). */
  function IndexOfFrom(s: string, w: string, i: nat): (r: Option<nat>)
    ensures r.Some? ==> i <= r.value && OccursAt(s, w, r.value)
    ensures r.Some? ==> forall k :: i <= k < r.value ==> !OccursAt(s, w, k)
    ensures r.None? ==> forall k :: i <= k ==> !OccursAt(s, w, k)
    decreases |s| - i
  {
    if i + |w| > |s| then None
    else if s[i..i + |w|] == w then Some(i)
    else IndexOfFrom(s, w, i + 1)
  }

  function IndexOf(s: string, w: string): Option<nat> {
    IndexOfFrom(s, w, 0)
  }

  /** `s.includes(w)` in JavaScript, `w in s` in Python. */
  predicate Contains(s: string, w: string) {
    IndexOf(s, w).Some?
  }

  lemma ContainsIff(s: string, w: string)
    ensures Contains(s, w) <==> exists k :: OccursAt(s, w, k)
  {
  }

  /** The first occurrence of a character that is not in `a` is found right after `a`. */
  lemma IndexOfAfterPrefix(a: string, c: char, b: string)
    requires c !in a
    ensures IndexOf(a + [c] + b, [c]) == Some(|a|)
  {
    var s := a + [c] + b;
    assert s[|a|..|a| + 1] == [c];
    forall k | 0 <= k < |a|
      ensures !OccursAt(s, [c], k)
    {
      assert s[k..k + 1] == [a[k]];
    }
    assert OccursAt(s, [c], |a|);
  }

  /**
   * The first `.pdf` of `stem + ".pdf" + rest` is the one after the stem when the stem has none:
   * a match starting inside the stem but running past it would read the suffix's `.` as `p`, `d` or `f`.
   */
  lemma PdfAfterStem(stem: string, rest: string)
    requires IndexOf(stem, ".pdf").None?
    ensures IndexOf(stem + ".pdf" + rest, ".pdf") == Some(|stem|)
  {
    var s := stem + ".pdf" + rest;
    forall k | 0 <= k < |stem|
      ensures !OccursAt(s, ".pdf", k)
    {
      if k + 4 <= |stem| {
        assert !OccursAt(stem, ".pdf", k);
        assert s[k..k + 4] == stem[k..k + 4];
      } else {
        var j := |stem| - k;
        assert s[|stem|] == '.';
        assert j == 1 || j == 2 || j == 3;
        assert ".pdf"[j] != '.';
        assert s[k..k + 4][j] == s[|stem|];
      }
    }
    assert s[|stem|..|stem| + 4] == ".pdf";
    assert OccursAt(s, ".pdf", |stem|);
  }

  lemma IndexOfAbsent(s: string, c: char)
    requires c !in s
    ensures IndexOf(s, [c]).None?
  {
    forall k | 0 <= k < |s|
      ensures !OccursAt(s, [c], k)
    {
      assert s[k..k + 1] == [s[k]];
    }
  }

  /**
   * `s.replace(pattern, replacement)` in JavaScript with a string pattern: only the first occurrence
   * is replaced. None of the replacements in this model contain `$`, so no substitution patterns apply.
   */
  function ReplaceFirst(s: string, pattern: string, replacement: string): (r: string)
    ensures IndexOf(s, pattern).None? ==> r == s
    ensures IndexOf(s, pattern).Some? ==>
      |r| == |s| - |pattern| + |replacement|
      && r == s[..IndexOf(s, pattern).value] + replacement + s[IndexOf(s, pattern).value + |pattern|..]
  {
    match IndexOf(s, pattern)
    case None => s
    case Some(k) => s[..k] + replacement + s[k + |pattern|..]
  }

  // ---------------------------------------------------------------------------------------------
  // Trimming

  function TrimStart(s: string): (r: string)
    ensures |r| <= |s| && r == s[|s| - |r|..]
    ensures r == [] || !IsSpace(r[0])
    ensures forall k :: 0 <= k < |s| - |r| ==> IsSpace(s[k])
  {
    if |s| > 0 && IsSpace(s[0]) then TrimStart(s[1..]) else s
  }

  function TrimEnd(s: string): (r: string)
    ensures |r| <= |s| && r == s[..|r|]
    ensures r == [] || !IsSpace(r[|r| - 1])
    ensures forall k :: |r| <= k < |s| ==> IsSpace(s[k])
  {
    if |s| > 0 && IsSpace(s[|s| - 1]) then TrimEnd(s[..|s| - 1]) else s
  }

  /** `s.trim()` in JavaScript. */
  function Trim(s: string): string {
    TrimEnd(TrimStart(s))
  }

  predicate NoOuterSpace(s: string) {
    s == [] || (!IsSpace(s[0]) && !IsSpace(s[|s| - 1]))
  }

  lemma TrimKeeps(s: string)
    requires NoOuterSpace(s)
    ensures Trim(s) == s
  {
  }

  /** `str.isspace()` in Python for one character: the ASCII controls it counts, the separators and the Unicode spaces. */
  predicate IsPySpace(c: char) {
    var n := c as int;
    (9 <= n <= 13) || (0x1C <= n <= 0x20) || n == 0x85 || n == 0xA0 || n == 0x1680 || (0x2000 <= n <= 0x200A)
    || n == 0x2028 || n == 0x2029 || n == 0x202F || n == 0x205F || n == 0x3000
  }

  function PyStripStart(s: string): (r: string)
    ensures |r| <= |s| && r == s[|s| - |r|..]
    ensures r == [] || !IsPySpace(r[0])
  {
    if |s| > 0 && IsPySpace(s[0]) then PyStripStart(s[1..]) else s
  }

  function PyStripEnd(s: string): (r: string)
    ensures |r| <= |s| && r == s[..|r|]
    ensures r == [] || !IsPySpace(r[|r| - 1])
  {
    if |s| > 0 && IsPySpace(s[|s| - 1]) then PyStripEnd(s[..|s| - 1]) else s
  }

  /** `s.strip()` in Python. */
  function PyStrip(s: string): string {
    PyStripEnd(PyStripStart(s))
  }

  /** `s[start:-k]` in Python for `0 <= start` and `k > 0`: empty when the end falls at or before the start. */
  function PySliceToNegative(s: string, start: nat, k: nat): (r: string)
    requires k > 0
    ensures |s| - k <= start ==> r == ""
    ensures start < |s| - k ==> r == s[start..|s| - k]
  {
    if |s| - k <= start then "" else s[start..|s| - k]
  }

  predicate StartsWith(s: string, prefix: string) {
    |prefix| <= |s| && s[..|prefix|] == prefix
  }

  predicate EndsWith(s: string, suffix: string) {
    |suffix| <= |s| && s[|s| - |suffix|..] == suffix
  }

  // ---------------------------------------------------------------------------------------------
  // Joining and splitting

  /** `parts.join(sep)` in JavaScript. */
  function Join(parts: seq<string>, sep: string): string
    decreases |parts|
  {
    if |parts| == 0 then ""
    else if |parts| == 1 then parts[0]
    else parts[0] + sep + Join(parts[1..], sep)
  }

  /** `s.split(c)` in JavaScript for a one-character separator: the pieces between separators. */
  function Split(s: string, c: char): (r: seq<string>)
    ensures |r| >= 1
    decreases |s|
  {
    match IndexOf(s, [c])
    case None => [s]
    case Some(k) => [s[..k]] + Split(s[k + 1..], c)
  }

  /** Splitting a joined sequence gives the parts back as long as no part contains the separator. */
  lemma {:induction false} SplitJoin(parts: seq<string>, c: char)
    requires |parts| >= 1
    requires forall i :: 0 <= i < |parts| ==> c !in parts[i]
    ensures Split(Join(parts, [c]), c) == parts
    decreases |parts|
  {
    if |parts| == 1 {
      IndexOfAbsent(parts[0], c);
    } else {
      var rest := Join(parts[1..], [c]);
      assert Join(parts, [c]) == parts[0] + [c] + rest;
      IndexOfAfterPrefix(parts[0], c, rest);
      var s := parts[0] + [c] + rest;
      assert s[..|parts[0]|] == parts[0];
      assert s[|parts[0]| + 1..] == rest;
      SplitJoin(parts[1..], c);
      assert parts == [parts[0]] + parts[1..];
    }
  }

  // ---------------------------------------------------------------------------------------------
  // Numerals

  function DigitChar(d: nat): (c: char)
    requires d < 10
    ensures IsDigit(c)
  {
    ('0' as int + d) as char
  }

  function DigitValue(c: char): nat {
    if IsDigit(c) then c as int - '0' as int else 0
  }

  predicate AllDigits(s: string) {
    forall i :: 0 <= i < |s| ==> IsDigit(s[i])
  }

  /** `String(n)` for a non-negative integer: decimal digits without leading zeros. */
  function DecimalString(n: nat): (r: string)
    ensures |r| >= 1 && AllDigits(r)
    ensures n < 10 <==> |r| == 1
  {
    if n < 10 then [DigitChar(n)] else DecimalString(n / 10) + [DigitChar(n % 10)]
  }

  /** `str(n)` in Python, `String(n)` in JavaScript, for any integer. */
  function IntString(n: int): (r: string)
    ensures |r| >= 1
    ensures n >= 0 ==> r == DecimalString(n)
    ensures n < 0 ==> r[0] == '-' && r[1..] == DecimalString(-n)
  {
    if n >= 0 then DecimalString(n) else "-" + DecimalString(-n)
  }

  /** The number a string of decimal digits denotes (characters other than digits count as 0). */
  function DigitsValue(s: string): nat
    decreases |s|
  {
    if s == [] then 0 else DigitsValue(s[..|s| - 1]) * 10 + DigitValue(s[|s| - 1])
  }

  function Pow10(k: nat): (r: nat)
    ensures r >= 1
  {
    if k == 0 then 1 else 10 * Pow10(k - 1)
  }

  lemma ShiftDigit(x: int, p: int, y: int, d: int)
    ensures (x * p + y) * 10 + d == x * (10 * p) + (y * 10 + d)
  {
    calc {
      (x * p + y) * 10 + d;
      x * p * 10 + y * 10 + d;
      x * (10 * p) + (y * 10 + d);
    }
  }

  lemma {:induction false} DigitsValueAppend(a: string, b: string)
    ensures DigitsValue(a + b) == DigitsValue(a) * Pow10(|b|) + DigitsValue(b)
    decreases |b|
  {
    if b == [] {
      assert a + b == a;
    } else {
      var b' := b[..|b| - 1];
      var d := DigitValue(b[|b| - 1]);
      assert (a + b)[..|a + b| - 1] == a + b';
      assert b[..|b| - 1] == b';
      assert DigitsValue(a + b) == DigitsValue(a + b') * 10 + d;
      assert DigitsValue(b) == DigitsValue(b') * 10 + d;
      DigitsValueAppend(a, b');
      var x, p, y := DigitsValue(a), Pow10(|b'|), DigitsValue(b');
      assert Pow10(|b|) == 10 * p;
      ShiftDigit(x, p, y, d);
    }
  }

  /** Reading back a decimal numeral gives the number it was written from. */
  lemma {:induction false} DecimalRoundTrip(n: nat)
    ensures DigitsValue(DecimalString(n)) == n
  {
    if n >= 10 {
      var s := DecimalString(n / 10) + [DigitChar(n % 10)];
      assert s[..|s| - 1] == DecimalString(n / 10);
      DecimalRoundTrip(n / 10);
    }
  }

  function HexDigit(d: nat): (c: char)
    requires d < 16
  {
    if d < 10 then DigitChar(d) else ('a' as int + d - 10) as char
  }

  predicate IsLowerHex(c: char) { IsDigit(c) || 'a' <= c <= 'f' }

  function HexDigitValue(c: char): nat {
    if IsDigit(c) then c as int - '0' as int else if 'a' <= c <= 'f' then c as int - 'a' as int + 10 else 0
  }

  /** `n.toString(16)` for a non-negative integer: lowercase hexadecimal without leading zeros. */
  function HexString(n: nat): (r: string)
    ensures |r| >= 1
    ensures forall i :: 0 <= i < |r| ==> IsLowerHex(r[i])
  {
    if n < 16 then [HexDigit(n)] else HexString(n / 16) + [HexDigit(n % 16)]
  }

  function HexValue(s: string): nat
    decreases |s|
  {
    if s == [] then 0 else HexValue(s[..|s| - 1]) * 16 + HexDigitValue(s[|s| - 1])
  }

  /** Reading back a hexadecimal numeral gives the number it was written from. */
  lemma {:induction false} HexRoundTrip(n: nat)
    ensures HexValue(HexString(n)) == n
  {
    if n >= 16 {
      var s := HexString(n / 16) + [HexDigit(n % 16)];
      assert s[..|s| - 1] == HexString(n / 16);
      assert HexDigitValue(s[|s| - 1]) == n % 16;
      HexRoundTrip(n / 16);
    }
  }
}
