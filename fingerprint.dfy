/**
 * The browser fingerprint that identifies an anonymous visitor: the feature summary, the hash that
 * turns the collected data into an identifier, and the cache that keeps one identifier per page
 * session. The canvas, WebGL, audio and screen readings and the SHA-256 digest come from the
 * browser and are parameters here.
 */
module Fingerprint {
  import opened Wrappers
  import opened Text

  // ---------------------------------------------------------------------------------------------
  // 32-bit arithmetic

  const TwoTo31: int := 0x8000_0000
  const TwoTo32: int := 0x1_0000_0000

  /** How many times 2^32 `ToInt32` takes away from `x`. */
  function Wraps(x: int): int {
    (x + 0x8000_0000) / 0x1_0000_0000
  }

  /** ECMAScript's `ToInt32`: the integer congruent to `x` modulo 2^32 in [-2^31, 2^31). */
  function ToInt32(x: int): (r: int)
    ensures -TwoTo31 <= r < TwoTo31
    ensures r == x - 0x1_0000_0000 * Wraps(x)
  {
    (x + 0x8000_0000) % 0x1_0000_0000 - 0x8000_0000
  }

  /** Adding a multiple of 2^32 does not change the wrapped value. */
  lemma ToInt32Shift(y: int, k: int)
    ensures ToInt32(y + 0x1_0000_0000 * k) == ToInt32(y)
  {
    var a := y + 0x8000_0000;
    assert Wraps(y + 0x1_0000_0000 * k) == Wraps(y) + k by {
      assert (a + 0x1_0000_0000 * k) / 0x1_0000_0000 == a / 0x1_0000_0000 + k;
    }
  }

  // ---------------------------------------------------------------------------------------------
  // The fallback hash

  /** `str.charCodeAt(i)` for every `i`: the string as UTF-16 code units. */
  function CodeUnits(s: string): (r: seq<int>)
    ensures forall i :: 0 <= i < |r| ==> 0 <= r[i] < 0x1_0000
    ensures |r| >= |s|
  {
    if s == [] then []
    else
      var c := s[0] as int;
      (if c < 0x1_0000 then [c] else [0xD800 + (c - 0x1_0000) / 0x400, 0xDC00 + (c - 0x1_0000) % 0x400])
      + CodeUnits(s[1..])
  }

  /** Java's `String.hashCode`: h := 31·h + unit for each code unit, in 32-bit signed arithmetic. */
  function JavaHash(units: seq<int>): (h: int)
    ensures -TwoTo31 <= h < TwoTo31
    decreases |units|
  {
    if units == [] then 0 else ToInt32(31 * JavaHash(units[..|units| - 1]) + units[|units| - 1])
  }

  /** The same polynomial in unbounded integers. */
  function Polynomial(units: seq<int>): int
    decreases |units|
  {
    if units == [] then 0 else 31 * Polynomial(units[..|units| - 1]) + units[|units| - 1]
  }

  /** Wrapping after every step and wrapping once at the end give the same hash. */
  lemma {:induction false} JavaHashIsWrappedPolynomial(units: seq<int>)
    ensures JavaHash(units) == ToInt32(Polynomial(units))
    decreases |units|
  {
    if units != [] {
      var init, last := units[..|units| - 1], units[|units| - 1];
      JavaHashIsWrappedPolynomial(init);
      var h, p := JavaHash(init), Polynomial(init);
      var q := Wraps(p);
      assert h == p - 0x1_0000_0000 * q;
      assert 31 * h + last == (31 * p + last) + 0x1_0000_0000 * (-31 * q);
      ToInt32Shift(31 * p + last, -31 * q);
    }
  }

  /**
   * One step of the loop as written: `hash << 5` wraps `hash · 32` to 32 bits, the subtraction
   * and addition are exact, and `hash & hash` wraps the sum; together that is Java's step.
   */
  lemma ShiftStepIsJavaStep(h: int, c: int)
    ensures ToInt32(ToInt32(h * 32) - h + c) == ToInt32(31 * h + c)
  {
    var q := Wraps(h * 32);
    assert ToInt32(h * 32) - h + c == (31 * h + c) + 0x1_0000_0000 * (-q);
    ToInt32Shift(31 * h + c, -q);
  }

  /** `Math.abs(hash).toString(16)`. */
  function FallbackText(h: int): string {
    HexString(if h < 0 then -h else h)
  }

  /** The fallback branch of `hashString`: the lowercase hexadecimal of the absolute hash. */
  method FallbackHash(str: string) returns (r: string)
    ensures r == FallbackText(JavaHash(CodeUnits(str)))
  {
    var units := CodeUnits(str);
    var hash := 0;
    var i := 0;
    while i < |units|
      invariant 0 <= i <= |units|
      invariant hash == JavaHash(units[..i])
    {
      var code := units[i];
      ShiftStepIsJavaStep(hash, code);
      assert units[..i + 1][..i] == units[..i];
      hash := ToInt32(ToInt32(hash * 32) - hash + code);
      i := i + 1;
    }
    assert units[..|units|] == units;
    r := HexString(if hash < 0 then -hash else hash);
  }

  /**
   * The fallback text is one to eight lowercase hexadecimal digits that read back as the absolute
   * value of the hash; the one hash without a 32-bit absolute value, -2^31, gives `80000000`.
   */
  lemma FallbackTextSpec(h: int)
    requires -TwoTo31 <= h < TwoTo31
    ensures var r := FallbackText(h);
      && 1 <= |r| <= 8
      && (forall i :: 0 <= i < |r| ==> IsLowerHex(r[i]))
      && HexValue(r) == (if h < 0 then -h else h)
  {
    var n: nat := if h < 0 then -h else h;
    HexRoundTrip(n);
    HexLength(n, 8);
  }

  lemma {:induction false} HexLength(n: nat, k: nat)
    requires k >= 1 && n <= Pow16(k)
    requires n == Pow16(k) ==> k == 8
    ensures |HexString(n)| <= (if n == Pow16(k) then k + 1 else k)
    decreases k
  {
    if n >= 16 {
      if k == 1 {
        assert false;
      }
      HexLengthStep(n, k);
    }
  }

  lemma {:induction false} HexLengthStep(n: nat, k: nat)
    requires k >= 2 && 16 <= n <= Pow16(k)
    ensures |HexString(n)| <= (if n == Pow16(k) then k + 1 else k)
    decreases k
  {
    var m := n / 16;
    assert Pow16(k) == 16 * Pow16(k - 1);
    assert m <= Pow16(k - 1);
    if m == Pow16(k - 1) {
      HexLengthExact(k - 1);
    } else {
      HexLengthBelow(m, k - 1);
    }
  }

  lemma {:induction false} HexLengthBelow(n: nat, k: nat)
    requires k >= 1 && n < Pow16(k)
    ensures |HexString(n)| <= k
    decreases k
  {
    if n >= 16 {
      assert Pow16(k) == 16 * Pow16(k - 1);
      HexLengthBelow(n / 16, k - 1);
    }
  }

  lemma {:induction false} HexLengthExact(k: nat)
    requires k >= 1
    ensures |HexString(Pow16(k))| == k + 1
    decreases k
  {
    if k > 1 {
      assert Pow16(k) == 16 * Pow16(k - 1);
      assert Pow16(k) / 16 == Pow16(k - 1) && Pow16(k) % 16 == 0;
      HexLengthExact(k - 1);
    }
  }

  function Pow16(k: nat): (r: nat)
    ensures r >= 1
  {
    if k == 0 then 1 else 16 * Pow16(k - 1)
  }

  lemma MinimumHashText()
    ensures FallbackText(-TwoTo31) == "80000000"
  {
    assert HexString(0x8) == "8";
    assert HexString(0x80) == "80" by { assert HexString(0x80) == HexString(0x8) + [HexDigit(0)]; }
    assert HexString(0x800) == "800" by { assert HexString(0x800) == HexString(0x80) + [HexDigit(0)]; }
    assert HexString(0x8000) == "8000" by { assert HexString(0x8000) == HexString(0x800) + [HexDigit(0)]; }
    assert HexString(0x8_0000) == "80000" by { assert HexString(0x8_0000) == HexString(0x8000) + [HexDigit(0)]; }
    assert HexString(0x80_0000) == "800000" by { assert HexString(0x80_0000) == HexString(0x8_0000) + [HexDigit(0)]; }
    assert HexString(0x800_0000) == "8000000" by { assert HexString(0x800_0000) == HexString(0x80_0000) + [HexDigit(0)]; }
    assert HexString(0x8000_0000) == "80000000" by { assert HexString(0x8000_0000) == HexString(0x800_0000) + [HexDigit(0)]; }
  }

  // ---------------------------------------------------------------------------------------------
  // The digest path

  type Byte = b: int | 0 <= b < 256

  /** A SHA-256 digest: 32 bytes. */
  type Digest = s: seq<Byte> | |s| == 32 witness seq(32, i => 0)

  /** `b.toString(16).padStart(2, '0')`. */
  function ByteHex(b: Byte): (r: string)
    ensures |r| == 2 && HexValue(r) == b
    ensures forall i :: 0 <= i < 2 ==> IsLowerHex(r[i])
  {
    HexRoundTrip(b);
    if b < 16 then
      assert HexValue(['0'] + HexString(b)) == HexValue(HexString(b)) by {
        var s := ['0'] + HexString(b);
        assert s[..1] == ['0'];
      }
      ['0'] + HexString(b)
    else
      assert HexString(b) == HexString(b / 16) + [HexDigit(b % 16)];
      HexString(b)
  }

  /** `hashArray.map(b => …).join('')`. */
  function HexOfBytes(bytes: seq<Byte>): (r: string)
    ensures |r| == 2 * |bytes|
    decreases |bytes|
  {
    if bytes == [] then "" else ByteHex(bytes[0]) + HexOfBytes(bytes[1..])
  }

  /** Each byte occupies its own two characters, which read back as the byte. */
  lemma {:induction false} HexOfBytesReadsBack(bytes: seq<Byte>, i: nat)
    requires i < |bytes|
    ensures HexValue(HexOfBytes(bytes)[2 * i..2 * i + 2]) == bytes[i]
    decreases i
  {
    var r := HexOfBytes(bytes);
    if i == 0 {
      assert r[..2] == ByteHex(bytes[0]);
    } else {
      HexOfBytesReadsBack(bytes[1..], i - 1);
      var head := ByteHex(bytes[0]);
      assert r == head + HexOfBytes(bytes[1..]);
      assert r[2 * i..2 * i + 2] == HexOfBytes(bytes[1..])[2 * (i - 1)..2 * (i - 1) + 2];
    }
  }

  /** A digest gives 64 characters. */
  lemma DigestLength(d: Digest)
    ensures |HexOfBytes(d)| == 64
  {
  }

  /**
   * `hashString`: the digest's hexadecimal when the crypto API produced one (`digest`), otherwise
   * the fallback hash.
   */
  method HashString(str: string, digest: Option<Digest>) returns (r: string)
    ensures digest.Some? ==> r == HexOfBytes(digest.value) && |r| == 64
    ensures digest.None? ==> r == FallbackText(JavaHash(CodeUnits(str)))
    ensures r != ""
  {
    if digest.Some? {
      r := HexOfBytes(digest.value);
    } else {
      r := FallbackHash(str);
    }
  }

  // ---------------------------------------------------------------------------------------------
  // The feature summary

  datatype BrowserFeatures = BrowserFeatures(
    webgl: bool, webgl2: bool, webrtc: bool, canvas: bool, localStorage: bool,
    sessionStorage: bool, indexedDB: bool, webWorker: bool, fetch: bool, touchSupport: bool)

  const FeatureNames: seq<string> := ["webgl", "webgl2", "webrtc", "canvas", "localStorage",
    "sessionStorage", "indexedDB", "webWorker", "fetch", "touchSupport"]

  function FeatureValues(f: BrowserFeatures): (r: seq<bool>)
    ensures |r| == 10
  {
    [f.webgl, f.webgl2, f.webrtc, f.canvas, f.localStorage, f.sessionStorage, f.indexedDB, f.webWorker,
     f.fetch, f.touchSupport]
  }

  function BoolText(b: bool): string {
    if b then "true" else "false"
  }

  /** The `key:value` entries in the order the object lists them. */
  function FeatureEntries(f: BrowserFeatures): (r: seq<string>)
    ensures |r| == 10
  {
    var v := FeatureValues(f);
    seq(10, i requires 0 <= i < 10 => FeatureNames[i] + ":" + BoolText(v[i]))
  }

  /** `getBrowserFeatures`. */
  function FeatureSummary(f: BrowserFeatures): string {
    Join(FeatureEntries(f), "|")
  }

  lemma NamesAvoidBar()
    ensures forall i :: 0 <= i < 10 ==> '|' !in FeatureNames[i] && ':' !in FeatureNames[i]
  {
  }

  /**
   * The summary splits at `|` into exactly the ten entries, in order, each the feature's name, a
   * colon and its value.
   */
  lemma FeatureSummarySplits(f: BrowserFeatures)
    ensures var parts := Split(FeatureSummary(f), '|');
      && |parts| == 10
      && forall i :: 0 <= i < 10 ==> parts[i] == FeatureNames[i] + ":" + BoolText(FeatureValues(f)[i])
  {
    var e := FeatureEntries(f);
    NamesAvoidBar();
    forall i | 0 <= i < 10
      ensures '|' !in e[i]
    {
      assert e[i] == FeatureNames[i] + ":" + BoolText(FeatureValues(f)[i]);
    }
    SplitJoin(e, '|');
  }

  /** Different feature sets give different summaries. */
  lemma FeatureSummaryInjective(f: BrowserFeatures, g: BrowserFeatures)
    requires FeatureSummary(f) == FeatureSummary(g)
    ensures f == g
  {
    FeatureSummarySplits(f);
    FeatureSummarySplits(g);
    var parts := Split(FeatureSummary(f), '|');
    var a, b := FeatureValues(f), FeatureValues(g);
    forall i | 0 <= i < 10
      ensures a[i] == b[i]
    {
      assert parts[i] == FeatureNames[i] + ":" + BoolText(a[i]);
      assert parts[i] == FeatureNames[i] + ":" + BoolText(b[i]);
      assert |BoolText(a[i])| == |BoolText(b[i])|;
    }
    assert a[0] == b[0] && a[1] == b[1] && a[2] == b[2] && a[3] == b[3] && a[4] == b[4];
    assert a[5] == b[5] && a[6] == b[6] && a[7] == b[7] && a[8] == b[8] && a[9] == b[9];
  }

  // ---------------------------------------------------------------------------------------------
  // The cache

  const StorageKey := "browser_fingerprint"

  /** JavaScript truthiness of a value that is a string or null. */
  predicate Truthy(v: Option<string>) {
    v.Some? && v.value != ""
  }

  /** `Math.random().toString(36).substr(2, 9)` is the parameter `randomPart` below. */
  function FallbackId(now: nat, randomPart: string): (r: string)
    ensures StartsWith(r, "fallback_")
  {
    "fallback_" + DecimalString(now) + "_" + randomPart
  }

  class BrowserFingerprint {
    /** `this.fingerprint`, null until a value is cached. */
    var fingerprint: Option<string>
    /** The page session's `sessionStorage`. */
    var sessionStorage: map<string, string>

    constructor (sessionStorage: map<string, string>)
      ensures fingerprint.None? && this.sessionStorage == sessionStorage
    {
      fingerprint := None;
      this.sessionStorage := sessionStorage;
    }

    /**
     * `generateFingerprint`: `collected` is the JSON of the readings, or `None` when collecting
     * them threw, in which case the identifier is the time-stamped fallback.
     */
    method GenerateFingerprint(collected: Option<string>, digest: Option<Digest>, now: nat, randomPart: string)
      returns (r: string)
      modifies this
      ensures collected.None? ==> r == FallbackId(now, randomPart)
      ensures collected.Some? && digest.Some? ==> r == HexOfBytes(digest.value)
      ensures collected.Some? && digest.None? ==> r == FallbackText(JavaHash(CodeUnits(collected.value)))
      ensures r != "" && fingerprint == Some(r) && sessionStorage == old(sessionStorage)
    {
      if collected.None? {
        r := FallbackId(now, randomPart);
      } else {
        r := HashString(collected.value, digest);
      }
      fingerprint := Some(r);
    }

    /**
     * `getFingerprint`: the value in memory, else the one in session storage (then also kept in
     * memory), else a newly generated one, kept in memory and in session storage.
     */
    method GetFingerprint(collected: Option<string>, digest: Option<Digest>, now: nat, randomPart: string)
      returns (r: string)
      modifies this
      ensures Truthy(old(fingerprint)) ==> (r == old(fingerprint).value && fingerprint == old(fingerprint)
        && sessionStorage == old(sessionStorage))
      ensures !Truthy(old(fingerprint)) && StorageKey in old(sessionStorage) && old(sessionStorage)[StorageKey] != "" ==>
        (r == old(sessionStorage)[StorageKey] && sessionStorage == old(sessionStorage))
      ensures !Truthy(old(fingerprint)) && !(StorageKey in old(sessionStorage) && old(sessionStorage)[StorageKey] != "") ==>
        (sessionStorage == old(sessionStorage)[StorageKey := r]
        && (collected.None? ==> r == FallbackId(now, randomPart))
        && (collected.Some? && digest.Some? ==> r == HexOfBytes(digest.value))
        && (collected.Some? && digest.None? ==> r == FallbackText(JavaHash(CodeUnits(collected.value)))))
      ensures r != "" && fingerprint == Some(r)
    {
      if Truthy(fingerprint) {
        return fingerprint.value;
      }
      if StorageKey in sessionStorage && sessionStorage[StorageKey] != "" {
        r := sessionStorage[StorageKey];
        fingerprint := Some(r);
        return;
      }
      r := GenerateFingerprint(collected, digest, now, randomPart);
      sessionStorage := sessionStorage[StorageKey := r];
    }
  }
}
