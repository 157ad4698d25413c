/** String helpers the agent uses to build addresses and identifiers:
    `str.rstrip("/")` on the configured API base, joining a path onto it, and
    the decimal rendering of an integer clock reading. */
module Text {

  /** True when every character of `s` is a slash. */
  predicate AllSlashes(s: string) {
    forall i :: 0 <= i < |s| ==> s[i] == '/'
  }

  /** `s.rstrip("/")`: `s` with every trailing slash removed. */
  function TrimTrailingSlashes(s: string): (r: string)
    ensures |r| <= |s| && r == s[..|r|]
    ensures AllSlashes(s[|r|..])
    ensures r == [] || r[|r| - 1] != '/'
  {
    if |s| > 0 && s[|s| - 1] == '/' then TrimTrailingSlashes(s[..|s| - 1]) else s
  }

  /** The three properties above determine the trimmed string: any prefix of
      `s` that leaves only slashes behind and does not itself end in a slash is
      `s.rstrip("/")`. */
  lemma TrimIsUnique(s: string, b: string)
    requires |b| <= |s| && b == s[..|b|]
    requires AllSlashes(s[|b|..])
    requires b == [] || b[|b| - 1] != '/'
    ensures b == TrimTrailingSlashes(s)
  {
  }

  /** Trimming twice trims nothing more. */
  lemma TrimIsIdempotent(s: string)
    ensures TrimTrailingSlashes(TrimTrailingSlashes(s)) == TrimTrailingSlashes(s)
  {
  }

  /** `base.rstrip("/") + path`: how every backend address is formed. The
      address is the path preceded by the base with only slashes dropped from
      its end, and by a part that itself does not end in a slash. */
  function JoinUrl(base: string, path: string): (r: string)
    ensures var k := |r| - |path|;
      && 0 <= k <= |base|
      && r[..k] == base[..k]
      && AllSlashes(base[k..])
      && (k == 0 || r[k - 1] != '/')
      && r[k..] == path
  {
    TrimTrailingSlashes(base) + path
  }

  /** Joining a path that starts with a slash never puts two slashes at the
      junction, whatever number of slashes the base ends with. */
  lemma NoDoubleSlashAtJunction(base: string, path: string)
    requires |path| > 0 && path[0] == '/'
    ensures var k := |TrimTrailingSlashes(base)|;
      var u := JoinUrl(base, path);
      u[k] == '/' && (k == 0 || u[k - 1] != '/')
  {
  }

  /** The decimal digit for `d`. */
  function DigitChar(d: nat): (c: char)
    requires d < 10
    ensures '0' <= c <= '9'
  {
    "0123456789"[d]
  }

  /** The value of a decimal digit character. */
  function DigitValue(c: char): (d: nat)
    requires '0' <= c <= '9'
    ensures d < 10
  {
    (c - '0') as nat
  }

  lemma DigitRoundTrip(d: nat)
    requires d < 10
    ensures DigitValue(DigitChar(d)) == d
  {
  }

  predicate IsDigits(s: string) {
    forall i :: 0 <= i < |s| ==> '0' <= s[i] <= '9'
  }

  /** Python's `str(n)` for a non-negative integer. */
  function Decimal(n: nat): (r: string)
    ensures |r| > 0 && IsDigits(r)
    ensures r[0] == '0' ==> n == 0 && r == "0"
  {
    if n < 10 then [DigitChar(n)] else Decimal(n / 10) + [DigitChar(n % 10)]
  }

  /** Reads a string of decimal digits back as a number. */
  function ParseDecimal(s: string): nat
    requires IsDigits(s)
  {
    if s == [] then 0 else ParseDecimal(s[..|s| - 1]) * 10 + DigitValue(s[|s| - 1])
  }

  /** `Decimal` is injective: reading the digits back gives the number. */
  lemma {:induction false} DecimalRoundTrip(n: nat)
    ensures ParseDecimal(Decimal(n)) == n
  {
    var r := Decimal(n);
    if n < 10 {
      DigitRoundTrip(n);
      assert r[..0] == [];
    } else {
      var p := Decimal(n / 10);
      assert r[..|r| - 1] == p;
      DecimalRoundTrip(n / 10);
      DigitRoundTrip(n % 10);
    }
  }
}
