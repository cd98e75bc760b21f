/**
 * Folder names of the shot skeleton: Python's `{v:03}` integer formatting
 * (decimal, left-padded with '0' to at least three characters, never
 * truncated) and the version-stamped names built from it.
 */
module Naming {

  predicate IsDigit(c: char) {
    '0' <= c <= '9'
  }

  predicate AllDigits(s: string) {
    forall i | 0 <= i < |s| :: IsDigit(s[i])
  }

  /** The character that spells the decimal digit `d`. */
  function DigitChar(d: nat): (c: char)
    requires d < 10
    ensures IsDigit(c) && c as int - '0' as int == d
  {
    ('0' as int + d) as char
  }

  /** `str(n)`: the decimal digits of `n`, most significant first. */
  function Decimal(n: nat): (s: string)
    ensures |s| >= 1 && AllDigits(s)
    ensures s[0] == '0' ==> n == 0
    decreases n
  {
    if n < 10 then [DigitChar(n)] else Decimal(n / 10) + [DigitChar(n % 10)]
  }

  /** `int(s)` for a string of decimal digits; leading zeros contribute nothing. */
  function DecimalValue(s: string): int
  {
    if s == [] then 0 else DecimalValue(s[..|s| - 1]) * 10 + (s[|s| - 1] as int - '0' as int)
  }

  /** `k` zero characters. */
  function Zeros(k: nat): (z: string)
    ensures |z| == k && forall i | 0 <= i < k :: z[i] == '0'
  {
    seq(k, _ => '0')
  }

  /**
   * `f"{v:03}"`: the decimal of `v` behind as many zeros as it takes to reach
   * three characters, and no zeros (and no truncation) once it has three or more.
   */
  function ZeroPad3(v: nat): string
  {
    var d := Decimal(v);
    Zeros(if |d| < 3 then 3 - |d| else 0) + d
  }

  /** The padded string is all digits: zeros, then the whole decimal of `v`. */
  lemma ZeroPad3Shape(v: nat)
    ensures var s := ZeroPad3(v);
      && |s| == (if |Decimal(v)| < 3 then 3 else |Decimal(v)|)
      && s[|s| - |Decimal(v)|..] == Decimal(v)
      && (forall i | 0 <= i < |s| - |Decimal(v)| :: s[i] == '0')
      && AllDigits(s)
  {
  }

  lemma {:induction false} DecimalRoundTrip(n: nat)
    ensures DecimalValue(Decimal(n)) == n
    decreases n
  {
    var s := Decimal(n);
    if n < 10 {
      assert s[..|s| - 1] == [];
    } else {
      assert s[..|s| - 1] == Decimal(n / 10);
      DecimalRoundTrip(n / 10);
    }
  }

  /** Leading zeros do not change the value of a digit string. */
  lemma {:induction false} LeadingZerosIgnored(k: nat, s: string)
    ensures DecimalValue(Zeros(k) + s) == DecimalValue(s)
    decreases |s| + k
  {
    if s == [] {
      if k > 0 {
        assert (Zeros(k) + s)[..k - 1] == Zeros(k - 1) + [];
        LeadingZerosIgnored(k - 1, []);
      } else {
        assert Zeros(k) + s == [];
      }
    } else {
      var t := Zeros(k) + s;
      assert t[..|t| - 1] == Zeros(k) + s[..|s| - 1];
      assert t[|t| - 1] == s[|s| - 1];
      LeadingZerosIgnored(k, s[..|s| - 1]);
    }
  }

  /** Reading the padded string back as a decimal gives the version again. */
  lemma ZeroPad3RoundTrip(v: nat)
    ensures DecimalValue(ZeroPad3(v)) == v
  {
    var d := Decimal(v);
    LeadingZerosIgnored(if |d| < 3 then 3 - |d| else 0, d);
    DecimalRoundTrip(v);
  }

  /** Distinct versions are spelt differently: the padding is injective. */
  lemma ZeroPad3Injective(v: nat, w: nat)
    ensures ZeroPad3(v) == ZeroPad3(w) ==> v == w
  {
    ZeroPad3RoundTrip(v);
    ZeroPad3RoundTrip(w);
  }

  lemma {:induction false} DecimalShort(n: nat)
    ensures |Decimal(n)| <= 3 <==> n < 1000
    ensures n < 10 ==> |Decimal(n)| == 1
    ensures 10 <= n < 100 ==> |Decimal(n)| == 2
  {
    if n >= 10 {
      DecimalShort(n / 10);
    }
  }

  /** Exactly three characters up to 999; the full decimal from 1000 on. */
  lemma ZeroPad3Width(v: nat)
    ensures |ZeroPad3(v)| == 3 <==> v < 1000
    ensures v >= 100 ==> ZeroPad3(v) == Decimal(v)
  {
    DecimalShort(v);
    if v >= 100 {
      DecimalShort(v / 10);
      assert Zeros(0) + Decimal(v) == Decimal(v);
    }
  }

  lemma ZeroPad3Examples()
    ensures ZeroPad3(1) == "001"
    ensures ZeroPad3(42) == "042"
    ensures ZeroPad3(1000) == "1000"
  {
    assert Decimal(1) == "1";
    assert Zeros(2) == "00";
    assert Decimal(4) == "4";
    assert Decimal(42) == "42";
    assert Zeros(1) == "0";
    assert Decimal(10) == "10";
    assert Decimal(100) == "100";
    assert Decimal(1000) == "1000";
  }

  /** `f"{shot}_roto_v{version:03}"`: the versioned folder under `out/`. */
  function VersionName(shot: string, v: nat): string
  {
    shot + "_roto_v" + ZeroPad3(v)
  }

  /**
   * `f"{shot}_roto_{kind}_v{version:03}"`: a subfolder of the version folder,
   * stamped with the same version as its parent.
   */
  function SubfolderName(shot: string, kind: string, v: nat): string
  {
    shot + "_roto_" + kind + "_v" + ZeroPad3(v)
  }

  /** Different versions of the same shot never share a folder name. */
  lemma VersionNameInjective(shot: string, v: nat, w: nat)
    ensures VersionName(shot, v) == VersionName(shot, w) ==> v == w
  {
    var prefix := shot + "_roto_v";
    assert VersionName(shot, v)[|prefix|..] == ZeroPad3(v);
    assert VersionName(shot, w)[|prefix|..] == ZeroPad3(w);
    ZeroPad3Injective(v, w);
  }
}
