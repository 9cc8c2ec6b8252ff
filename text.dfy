/**
 * String helpers the logger relies on: ASCII case mapping (the level names are
 * ASCII), decimal rendering of integers (strconv.Itoa) and the Unix flavour of
 * path/filepath.Base.
 */
module Text {
  import Common

  predicate IsAsciiUpper(c: char) { 'A' <= c <= 'Z' }

  predicate IsAsciiLower(c: char) { 'a' <= c <= 'z' }

  function UpperChar(c: char): char
  {
    if IsAsciiLower(c) then (c as int - 32) as char else c
  }

  function LowerChar(c: char): char
  {
    if IsAsciiUpper(c) then (c as int + 32) as char else c
  }

  /** strings.ToUpper restricted to ASCII letters. */
  function ToUpper(s: string): (r: string)
    ensures |r| == |s|
    ensures forall i :: 0 <= i < |s| ==> r[i] == UpperChar(s[i])
    ensures forall i :: 0 <= i < |r| ==> !IsAsciiLower(r[i])
  {
    if s == [] then [] else [UpperChar(s[0])] + ToUpper(s[1..])
  }

  /** strings.ToLower restricted to ASCII letters. */
  function ToLower(s: string): (r: string)
    ensures |r| == |s|
    ensures forall i :: 0 <= i < |s| ==> r[i] == LowerChar(s[i])
  {
    if s == [] then [] else [LowerChar(s[0])] + ToLower(s[1..])
  }

  /** A string with no upper-case ASCII letter survives upper-casing and lower-casing again. */
  lemma {:induction false} LowerUndoesUpper(s: string)
    requires forall i :: 0 <= i < |s| ==> !IsAsciiUpper(s[i])
    ensures ToLower(ToUpper(s)) == s
  {
    if s != [] {
      LowerUndoesUpper(s[1..]);
      assert ToUpper(s) == [UpperChar(s[0])] + ToUpper(s[1..]);
      assert ToLower(ToUpper(s)) == [LowerChar(UpperChar(s[0]))] + ToLower(ToUpper(s[1..]));
    }
  }

  // ---------------------------------------------------------------------
  // Decimal rendering (strconv.Itoa)

  predicate IsDigit(c: char) { '0' <= c <= '9' }

  function DigitChar(d: nat): (c: char)
    requires d < 10
    ensures IsDigit(c)
  {
    ('0' as int + d) as char
  }

  /** The decimal digits of n, most significant first, without leading zeros. */
  function NatToString(n: nat): (r: string)
    ensures |r| >= 1
    ensures forall i :: 0 <= i < |r| ==> IsDigit(r[i])
    ensures |r| > 1 ==> r[0] != '0'
    ensures n > 0 ==> r[0] != '0'
    decreases n
  {
    if n < 10 then [DigitChar(n)] else NatToString(n / 10) + [DigitChar(n % 10)]
  }

  /** The value of a string of decimal digits. */
  function DigitsValue(s: string): nat
    requires forall i :: 0 <= i < |s| ==> IsDigit(s[i])
  {
    if s == [] then 0
    else
      var last := s[|s| - 1];
      assert IsDigit(last);
      DigitsValue(s[..|s| - 1]) * 10 + (last as int - '0' as int)
  }

  lemma {:induction false} NatToStringRoundTrip(n: nat)
    ensures DigitsValue(NatToString(n)) == n
    decreases n
  {
    if n >= 10 {
      var r := NatToString(n);
      NatToStringRoundTrip(n / 10);
      assert r[..|r| - 1] == NatToString(n / 10);
    }
  }

  /** strconv.Itoa: an optional minus sign followed by the digits of |n|. */
  function Itoa(n: int): (r: string)
    ensures n >= 0 ==> forall i :: 0 <= i < |r| ==> IsDigit(r[i])
    ensures n < 0 ==> |r| >= 2 && r[0] == '-' && forall i :: 1 <= i < |r| ==> IsDigit(r[i])
    ensures |r| >= 1 && (r[0] == '0' ==> r == "0")
    ensures r[0] == '-' ==> |r| >= 2 && r[1] != '0'
    ensures forall i :: 0 <= i < |r| ==> r[i] != '/'
  {
    if n < 0 then "-" + NatToString(-n) else NatToString(n)
  }

  /** strconv.Atoi restricted to what Itoa produces. */
  function ParseInt(s: string): Common.Option<int>
  {
    if |s| >= 2 && s[0] == '-' && forall i :: 1 <= i < |s| ==> IsDigit(s[i]) then
      var magnitude: int := DigitsValue(s[1..]);
      Common.Some(-magnitude)
    else if |s| >= 1 && forall i :: 0 <= i < |s| ==> IsDigit(s[i]) then
      Common.Some(DigitsValue(s))
    else
      Common.None
  }

  lemma ItoaRoundTrip(n: int)
    ensures ParseInt(Itoa(n)) == Common.Some(n)
  {
    NatToStringRoundTrip(if n < 0 then -n else n);
    if n < 0 {
      ParseNegative(NatToString(-n));
    } else {
      ParseDigits(NatToString(n));
    }
  }

  lemma ParseDigits(d: string)
    requires |d| >= 1 && forall i :: 0 <= i < |d| ==> IsDigit(d[i])
    ensures ParseInt(d) == Common.Some(DigitsValue(d) as int)
  {
    assert d[0] != '-';
  }

  lemma ParseNegative(d: string)
    requires |d| >= 1 && forall i :: 0 <= i < |d| ==> IsDigit(d[i])
    ensures ParseInt("-" + d) == Common.Some(-(DigitsValue(d) as int))
  {
    var s := "-" + d;
    assert s[1..] == d;
    assert forall i :: 1 <= i < |s| ==> s[i] == d[i - 1];
  }

  // ---------------------------------------------------------------------
  // path/filepath.Base with '/' as the only separator

  /** p with every trailing '/' removed. */
  function TrimTrailingSlashes(p: string): (r: string)
    ensures |r| <= |p| && r == p[..|r|]
    ensures r == [] || r[|r| - 1] != '/'
    ensures forall i :: |r| <= i < |p| ==> p[i] == '/'
  {
    if p == [] || p[|p| - 1] != '/' then p else TrimTrailingSlashes(p[..|p| - 1])
  }

  /** The longest suffix of p that holds no '/'. */
  function AfterLastSlash(p: string): (r: string)
    ensures |r| <= |p| && r == p[|p| - |r|..]
    ensures forall i :: 0 <= i < |r| ==> r[i] != '/'
    ensures |r| < |p| ==> p[|p| - |r| - 1] == '/'
  {
    if p == [] || p[|p| - 1] == '/' then [] else AfterLastSlash(p[..|p| - 1]) + [p[|p| - 1]]
  }

  /**
   * filepath.Base on a Unix system: "." for the empty path, "/" for a path of
   * slashes only, otherwise the last element after trailing slashes are dropped.
   */
  function Base(p: string): (r: string)
    ensures r != []
    ensures p == [] ==> r == "."
    ensures r == "/" || forall i :: 0 <= i < |r| ==> r[i] != '/'
  {
    if p == [] then "."
    else
      var t := TrimTrailingSlashes(p);
      if t == [] then "/" else AfterLastSlash(t)
  }

  /** Base gives "/" exactly for a non-empty path made only of slashes. */
  lemma BaseIsSlashOnlyForSlashes(p: string)
    ensures Base(p) == "/" <==> (p != [] && forall i :: 0 <= i < |p| ==> p[i] == '/')
  {
    if p != [] {
      var t := TrimTrailingSlashes(p);
      if t != [] {
        assert t[|t| - 1] != '/' && t[|t| - 1] == p[|t| - 1];
        assert AfterLastSlash(t) != [];
        assert AfterLastSlash(t)[0] != '/';
      }
    }
  }

  /** A name holding no '/' is its own base name, and is the base name of any path ending in "/" + name. */
  lemma BaseOfJoin(dir: string, name: string)
    requires name != []
    requires forall i :: 0 <= i < |name| ==> name[i] != '/'
    ensures Base(name) == name
    ensures Base(dir + "/" + name) == name
  {
    AfterLastSlashOfName(name);
    var p := dir + "/" + name;
    assert p[|p| - 1] == name[|name| - 1];
    assert TrimTrailingSlashes(p) == p;
    AfterLastSlashOfJoin(dir + "/", name);
  }

  lemma AfterLastSlashOfName(name: string)
    requires forall i :: 0 <= i < |name| ==> name[i] != '/'
    ensures AfterLastSlash(name) == name
  {
  }

  lemma AfterLastSlashOfJoin(prefix: string, name: string)
    requires prefix != [] && prefix[|prefix| - 1] == '/'
    requires forall i :: 0 <= i < |name| ==> name[i] != '/'
    ensures AfterLastSlash(prefix + name) == name
  {
    var p := prefix + name;
    assert forall i :: |prefix| <= i < |p| ==> p[i] == name[i - |prefix|];
    assert p[|prefix| - 1] == '/';
  }
}
