/** Small value types and the subset of Python's string and number
    conversions that the trading client relies on: `str.strip`, `str.upper`,
    `str.lower`, `str.split` (with and without a split limit), `int(str)` and
    `float(str)`. Only ASCII is modelled. */
module Util {

  datatype Option<+T> = None | Some(value: T) {
    function GetOr(default: T): T {
      if Some? then value else default
    }
  }

  datatype Result<+T, +E> = Success(value: T) | Failure(error: E)

  // ---------------------------------------------------------------------------
  // Characters and trimming
  // ---------------------------------------------------------------------------

  /** The ASCII characters for which Python's `str.isspace` holds. */
  predicate IsSpace(c: char) {
    c == ' ' || ('\t' <= c <= '\r') || ('\U{1C}' <= c <= '\U{1F}')
  }

  predicate IsDigit(c: char) {
    '0' <= c <= '9'
  }

  predicate AllDigits(s: string) {
    forall i :: 0 <= i < |s| ==> IsDigit(s[i])
  }

  function TrimLeft(s: string): (r: string)
    ensures |r| <= |s| && r == s[|s| - |r|..]
    ensures r == [] || !IsSpace(r[0])
  {
    if |s| > 0 && IsSpace(s[0]) then TrimLeft(s[1..]) else s
  }

  function TrimRight(s: string): (r: string)
    ensures |r| <= |s| && r == s[..|r|]
    ensures r == [] || !IsSpace(r[|r| - 1])
  {
    if |s| > 0 && IsSpace(s[|s| - 1]) then TrimRight(s[..|s| - 1]) else s
  }

  /** No whitespace at either end. */
  predicate Trimmed(s: string) {
    s == [] || (!IsSpace(s[0]) && !IsSpace(s[|s| - 1]))
  }

  /** Python's `str.strip()` with no argument, on ASCII whitespace. */
  function Strip(s: string): (r: string)
    ensures |r| <= |s|
    ensures Trimmed(r)
  {
    TrimRight(TrimLeft(s))
  }

  /** A string without surrounding whitespace is its own strip; in
      particular stripping twice is stripping once. */
  lemma StripFixed(s: string)
    requires Trimmed(s)
    ensures Strip(s) == s
  {
  }

  lemma StripIdempotent(s: string)
    ensures Strip(Strip(s)) == Strip(s)
  {
    StripFixed(Strip(s));
  }

  function UpperChar(c: char): char {
    if 'a' <= c <= 'z' then (c as int - 'a' as int + 'A' as int) as char else c
  }

  function LowerChar(c: char): char {
    if 'A' <= c <= 'Z' then (c as int - 'A' as int + 'a' as int) as char else c
  }

  /** `str.upper()` restricted to ASCII letters. */
  function Upper(s: string): (r: string)
    ensures |r| == |s| && forall i :: 0 <= i < |s| ==> r[i] == UpperChar(s[i])
  {
    seq(|s|, i requires 0 <= i < |s| => UpperChar(s[i]))
  }

  /** `str.lower()` restricted to ASCII letters. */
  function Lower(s: string): (r: string)
    ensures |r| == |s| && forall i :: 0 <= i < |s| ==> r[i] == LowerChar(s[i])
  {
    seq(|s|, i requires 0 <= i < |s| => LowerChar(s[i]))
  }

  /** Lower-casing a character keeps it a space or not, and is idempotent. */
  lemma LowerCharFacts(c: char)
    ensures IsSpace(LowerChar(c)) == IsSpace(c) && LowerChar(LowerChar(c)) == LowerChar(c)
  {
  }

  /** Lower-casing a string without surrounding whitespace leaves none, and
      lower-casing twice is lower-casing once. */
  lemma LowerTrimmed(s: string)
    requires Trimmed(s)
    ensures Trimmed(Lower(s)) && Lower(Lower(s)) == Lower(s)
  {
    var l := Lower(s);
    if |s| > 0 {
      LowerCharFacts(s[0]);
      LowerCharFacts(s[|s| - 1]);
    }
    forall i | 0 <= i < |l|
      ensures Lower(l)[i] == l[i]
    {
      LowerCharFacts(s[i]);
    }
  }

  /** Trimming the left of a string with a blank appended keeps the blank
      at the end, unless nothing but blanks is left. */
  lemma {:induction false} TrimLeftSnoc(s: string, c: char)
    requires IsSpace(c)
    ensures TrimLeft(s + [c]) == (if TrimLeft(s) == [] then [] else TrimLeft(s) + [c])
    decreases |s|
  {
    if |s| == 0 {
      assert [] + [c] == [c] && [c][1..] == [];
    } else if IsSpace(s[0]) {
      assert (s + [c])[1..] == s[1..] + [c];
      TrimLeftSnoc(s[1..], c);
    }
  }

  /** A blank added at either end disappears when the string is stripped. */
  lemma StripPad(s: string, c: char)
    requires IsSpace(c)
    ensures Strip([c] + s) == Strip(s)
    ensures Strip(s + [c]) == Strip(s)
  {
    assert ([c] + s)[1..] == s;
    assert TrimLeft([c] + s) == TrimLeft(s);
    TrimLeftSnoc(s, c);
    var x := TrimLeft(s);
    if x != [] {
      var y := x + [c];
      assert y[..|y| - 1] == x && IsSpace(y[|y| - 1]);
      assert TrimRight(y) == TrimRight(x);
    }
  }

  lemma {:induction false} TrimLeftLower(s: string)
    ensures TrimLeft(Lower(s)) == Lower(TrimLeft(s))
    decreases |s|
  {
    if |s| > 0 {
      LowerCharFacts(s[0]);
      if IsSpace(s[0]) {
        assert Lower(s)[1..] == Lower(s[1..]);
        TrimLeftLower(s[1..]);
      }
    }
  }

  lemma {:induction false} TrimRightLower(s: string)
    ensures TrimRight(Lower(s)) == Lower(TrimRight(s))
    decreases |s|
  {
    if |s| > 0 {
      LowerCharFacts(s[|s| - 1]);
      if IsSpace(s[|s| - 1]) {
        assert Lower(s)[..|s| - 1] == Lower(s[..|s| - 1]);
        TrimRightLower(s[..|s| - 1]);
      }
    }
  }

  /** Stripping and lower-casing commute. */
  lemma StripLower(s: string)
    ensures Strip(Lower(s)) == Lower(Strip(s))
  {
    TrimLeftLower(s);
    TrimRightLower(TrimLeft(s));
  }

  /** Upper-casing forgets an earlier lower-casing. */
  lemma UpperLower(s: string)
    ensures Upper(Lower(s)) == Upper(s)
  {
    forall i | 0 <= i < |s|
      ensures Upper(Lower(s))[i] == Upper(s)[i]
    {
      assert Lower(s)[i] == LowerChar(s[i]);
    }
  }

  // ---------------------------------------------------------------------------
  // Splitting
  // ---------------------------------------------------------------------------

  /** Index of the first occurrence of `c` in `s`. */
  function IndexOf(s: string, c: char): (r: Option<nat>)
    ensures r.None? <==> c !in s
    ensures r.Some? ==> r.value < |s| && s[r.value] == c && c !in s[..r.value]
  {
    if |s| == 0 then None
    else if s[0] == c then Some(0)
    else match IndexOf(s[1..], c)
      case None => None
      case Some(i) => assert s[1..][..i] == s[1..i + 1]; Some(i + 1)
  }

  /** Inverse of splitting: the parts glued together with `sep`. */
  function Join(parts: seq<string>, sep: char): string {
    if |parts| == 0 then ""
    else if |parts| == 1 then parts[0]
    else parts[0] + [sep] + Join(parts[1..], sep)
  }

  /** The number of occurrences of `c` in `s`. */
  function Count(s: string, c: char): nat {
    multiset(s)[c]
  }

  lemma CountAround(s: string, i: nat, c: char)
    requires i < |s| && s[i] == c && c !in s[..i]
    ensures Count(s, c) == Count(s[i + 1..], c) + 1
  {
    assert s == s[..i] + [s[i]] + s[i + 1..];
    assert multiset(s) == multiset(s[..i]) + multiset([s[i]]) + multiset(s[i + 1..]);
    assert multiset(s[..i])[c] == 0;
  }

  lemma JoinCons(a: string, rest: seq<string>, sep: char)
    requires |rest| >= 1
    ensures Join([a] + rest, sep) == a + [sep] + Join(rest, sep)
  {
    assert ([a] + rest)[1..] == rest;
  }

  /** The first separator of `a + [sep] + b` is the one after `a` when `a`
      holds none, and cutting there gives `a` and `b` back. */
  lemma IndexOfCut(a: string, sep: char, b: string)
    requires sep !in a
    ensures var s := a + [sep] + b;
      IndexOf(s, sep) == Some(|a|) && s[..|a|] == a && s[|a| + 1..] == b
  {
    var s := a + [sep] + b;
    assert s[|a|] == sep;
    assert s[..|a|] == a;
  }

  /** The facts shared by both splitting functions about one cut at the
      first separator. */
  lemma CutAt(s: string, i: nat, sep: char, rest: seq<string>)
    requires i < |s| && s[i] == sep && sep !in s[..i]
    requires |rest| >= 1 && Join(rest, sep) == s[i + 1..]
    ensures Join([s[..i]] + rest, sep) == s
    ensures Count(s, sep) == Count(s[i + 1..], sep) + 1
  {
    CountAround(s, i, sep);
    JoinCons(s[..i], rest, sep);
    assert s == s[..i] + [sep] + s[i + 1..];
  }

  /** Python's `s.split(sep)` for a one-character separator: one more part
      than there are separators, no part contains `sep`, and joining the
      parts gives `s` back. */
  function Split(s: string, sep: char): (r: seq<string>)
    ensures |r| == Count(s, sep) + 1
    ensures forall i :: 0 <= i < |r| ==> sep !in r[i]
    ensures Join(r, sep) == s
    decreases |s|
  {
    match IndexOf(s, sep)
    case None =>
      assert multiset(s)[sep] == 0;
      [s]
    case Some(i) =>
      var rest := Split(s[i + 1..], sep);
      CutAt(s, i, sep, rest);
      [s[..i]] + rest
  }

  /** One cut of `SplitN` at the first separator, given the split of the
      rest with one cut fewer. */
  lemma SplitNCut(s: string, i: nat, sep: char, n: nat, rest: seq<string>)
    requires n > 0 && i < |s| && s[i] == sep && sep !in s[..i]
    requires var c := Count(s[i + 1..], sep); |rest| == (if c < n - 1 then c else n - 1) + 1
    requires forall k :: 0 <= k < |rest| - 1 ==> sep !in rest[k]
    requires Join(rest, sep) == s[i + 1..]
    ensures var r := [s[..i]] + rest;
      && |r| == (if Count(s, sep) < n then Count(s, sep) else n) + 1
      && (forall k :: 0 <= k < |r| - 1 ==> sep !in r[k])
      && Join(r, sep) == s
  {
    CutAt(s, i, sep, rest);
    var r := [s[..i]] + rest;
    assert forall k :: 1 <= k < |r| ==> r[k] == rest[k - 1];
  }

  /** Python's `s.split(sep, n)`: at most `n` splits, the last part keeps
      the remainder unsplit. */
  function SplitN(s: string, sep: char, n: nat): (r: seq<string>)
    ensures |r| == (if Count(s, sep) < n then Count(s, sep) else n) + 1
    ensures forall i :: 0 <= i < |r| - 1 ==> sep !in r[i]
    ensures Join(r, sep) == s
    decreases n
  {
    if n == 0 then [s]
    else match IndexOf(s, sep)
      case None =>
        assert multiset(s)[sep] == 0;
        [s]
      case Some(i) =>
        var rest := SplitN(s[i + 1..], sep, n - 1);
        SplitNCut(s, i, sep, n, rest);
        [s[..i]] + rest
  }

  // ---------------------------------------------------------------------------
  // Numbers
  // ---------------------------------------------------------------------------

  function DigitValue(c: char): nat
    requires IsDigit(c)
  {
    c as int - '0' as int
  }

  /** The value of a string of decimal digits, most significant first. */
  function DigitsValue(d: string): nat
    requires AllDigits(d)
  {
    if |d| == 0 then 0 else DigitsValue(d[..|d| - 1]) * 10 + DigitValue(d[|d| - 1])
  }

  function Pow10(n: nat): (r: nat)
    ensures r >= 1
  {
    if n == 0 then 1 else 10 * Pow10(n - 1)
  }

  /** Python's `int(str)` on ASCII input: surrounding whitespace, an optional
      sign and at least one decimal digit. */
  function ParseInt(s: string): Option<int>
  {
    ParseSignedInt(Strip(s))
  }

  /** `int()` on text that is already stripped. */
  function ParseSignedInt(t: string): Option<int>
  {
    if |t| > 0 && (t[0] == '-' || t[0] == '+') then
      var body := t[1..];
      if |body| > 0 && AllDigits(body) then
        Some(if t[0] == '-' then -(DigitsValue(body) as int) else DigitsValue(body))
      else None
    else if |t| > 0 && AllDigits(t) then Some(DigitsValue(t))
    else None
  }

  /** Python's `float(str)` on plain decimal notation, as an exact rational:
      surrounding whitespace, an optional sign, digits with at most one
      decimal point and at least one digit. */
  function ParseFloat(s: string): Option<real>
  {
    ParseSignedFloat(Strip(s))
  }

  /** `float()` on text that is already stripped. */
  function ParseSignedFloat(t: string): Option<real>
  {
    var neg := |t| > 0 && t[0] == '-';
    var body := if |t| > 0 && (t[0] == '-' || t[0] == '+') then t[1..] else t;
    var mag: Option<real> :=
      match IndexOf(body, '.')
      case None =>
        if |body| > 0 && AllDigits(body) then Some(DigitsValue(body) as real) else None
      case Some(i) =>
        var ip := body[..i];
        var fp := body[i + 1..];
        if (|ip| > 0 || |fp| > 0) && AllDigits(ip) && AllDigits(fp)
        then Some(DigitsValue(ip) as real + DigitsValue(fp) as real / Pow10(|fp|) as real)
        else None;
    match mag
    case None => None
    case Some(m) => Some(if neg then -m else m)
  }

  /** Python's `int(x)` on a float: truncation toward zero. */
  function Trunc(x: real): (r: int)
    ensures x >= 0.0 ==> r as real <= x < r as real + 1.0
    ensures x < 0.0 ==> r as real - 1.0 < x <= r as real
  {
    if x >= 0.0 then x.Floor else -((-x).Floor)
  }

  /** `math.ceil(x)`. */
  function Ceil(x: real): (r: int)
    ensures r as real - 1.0 < x <= r as real
  {
    -((-x).Floor)
  }

  /** Python's `str(n)` for a natural number. */
  function NatToString(n: nat): (r: string)
    ensures |r| > 0 && AllDigits(r)
  {
    if n < 10 then ["0123456789"[n]]
    else NatToString(n / 10) + ["0123456789"[n % 10]]
  }

  lemma {:induction false} DigitsRoundTrip(n: nat)
    ensures DigitsValue(NatToString(n)) == n
  {
    var r := NatToString(n);
    if n >= 10 {
      DigitsRoundTrip(n / 10);
      assert r[..|r| - 1] == NatToString(n / 10);
    }
  }

  lemma SignedDigits(d: string)
    requires |d| > 0 && AllDigits(d)
    ensures ParseSignedInt(d) == Some(DigitsValue(d) as int)
    ensures ParseSignedInt("-" + d) == Some(-(DigitsValue(d) as int))
  {
    assert IsDigit(d[0]);
    assert ("-" + d)[1..] == d;
  }

  lemma ParseDigits(d: string)
    requires |d| > 0 && AllDigits(d)
    ensures ParseInt(d) == Some(DigitsValue(d) as int)
  {
    assert IsDigit(d[0]) && IsDigit(d[|d| - 1]);
    StripFixed(d);
    SignedDigits(d);
  }

  lemma ParseNegativeDigits(d: string)
    requires |d| > 0 && AllDigits(d)
    ensures ParseInt("-" + d) == Some(-(DigitsValue(d) as int))
  {
    var s := "-" + d;
    assert IsDigit(d[|d| - 1]) && s[|s| - 1] == d[|d| - 1];
    StripFixed(s);
    SignedDigits(d);
  }

  /** `int(str(n)) == n`: the integer parser inverts decimal rendering. */
  lemma ParseIntRoundTrip(n: int)
    ensures ParseInt(if n < 0 then "-" + NatToString(-n) else NatToString(n)) == Some(n)
  {
    var d := NatToString(if n < 0 then -n else n);
    DigitsRoundTrip(if n < 0 then -n else n);
    if n < 0 {
      ParseNegativeDigits(d);
    } else {
      ParseDigits(d);
    }
  }

  /** Every string `int()` accepts, `float()` accepts with the same value,
      so `int(float(s)) == int(s)` whenever `int(s)` succeeds. */
  lemma ParseFloatExtendsParseInt(s: string)
    requires ParseInt(s).Some?
    ensures ParseFloat(s) == Some(ParseInt(s).value as real)
    ensures Trunc(ParseFloat(s).value) == ParseInt(s).value
  {
    SignedFloatExtendsInt(Strip(s));
    TruncWhole(ParseInt(s).value);
  }

  lemma SignedFloatExtendsInt(t: string)
    requires ParseSignedInt(t).Some?
    ensures ParseSignedFloat(t) == Some(ParseSignedInt(t).value as real)
  {
    var body := if |t| > 0 && (t[0] == '-' || t[0] == '+') then t[1..] else t;
    assert AllDigits(body);
    assert '.' !in body by {
      forall k | 0 <= k < |body| ensures body[k] != '.' {
        assert IsDigit(body[k]);
      }
    }
    assert IndexOf(body, '.').None?;
  }

  lemma TruncWhole(n: int)
    ensures Trunc(n as real) == n
  {
  }
}
