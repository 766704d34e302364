/** The parts of JavaScript's string semantics the client relies on:
    `String.prototype.trim` and the truthiness of an optional string. */
module JsString {
  import opened Wrappers

  /** ECMAScript WhiteSpace and LineTerminator code points, the characters `trim` removes. */
  predicate IsWhitespace(c: char) {
    || c == '\t' || c == '\n' || c == '\U{000B}' || c == '\U{000C}' || c == '\r'
    || c == ' ' || c == '\U{00A0}' || c == '\U{1680}'
    || ('\U{2000}' <= c <= '\U{200A}')
    || c == '\U{2028}' || c == '\U{2029}' || c == '\U{202F}' || c == '\U{205F}'
    || c == '\U{3000}' || c == '\U{FEFF}'
  }

  /** Drops leading whitespace (see `TrimStartSpec`). */
  function TrimStart(s: string): (r: string)
    ensures |r| <= |s|
    decreases |s|
  {
    if s != [] && IsWhitespace(s[0]) then TrimStart(s[1..]) else s
  }

  /** Drops trailing whitespace (see `TrimEndSpec`). */
  function TrimEnd(s: string): (r: string)
    ensures |r| <= |s|
    decreases |s|
  {
    if s != [] && IsWhitespace(s[|s| - 1]) then TrimEnd(s[..|s| - 1]) else s
  }

  /** `s.trim()` (see `TrimSpec` and `TrimIsInfix`). */
  function Trim(s: string): (r: string)
    ensures |r| <= |s|
  {
    TrimEnd(TrimStart(s))
  }

  /** `TrimStart(s)` is a suffix of `s`, everything dropped is whitespace, and
      what is kept does not start with whitespace. */
  lemma {:induction false} TrimStartSpec(s: string)
    ensures TrimStart(s) == s[|s| - |TrimStart(s)|..]
    ensures forall i :: 0 <= i < |s| - |TrimStart(s)| ==> IsWhitespace(s[i])
    ensures TrimStart(s) != [] ==> !IsWhitespace(TrimStart(s)[0])
    decreases |s|
  {
    if s != [] && IsWhitespace(s[0]) {
      TrimStartSpec(s[1..]);
      var r := TrimStart(s);
      assert r == TrimStart(s[1..]);
      forall i | 1 <= i < |s| - |r| ensures IsWhitespace(s[i]) {
        assert s[i] == s[1..][i - 1];
      }
    }
  }

  /** `TrimEnd(s)` is a prefix of `s`, everything dropped is whitespace, and
      what is kept does not end with whitespace. */
  lemma {:induction false} TrimEndSpec(s: string)
    ensures TrimEnd(s) == s[..|TrimEnd(s)|]
    ensures forall i :: |TrimEnd(s)| <= i < |s| ==> IsWhitespace(s[i])
    ensures TrimEnd(s) != [] ==> !IsWhitespace(TrimEnd(s)[|TrimEnd(s)| - 1])
    decreases |s|
  {
    if s != [] && IsWhitespace(s[|s| - 1]) {
      var u := s[..|s| - 1];
      TrimEndSpec(u);
      var r := TrimEnd(s);
      assert r == TrimEnd(u);
      forall i | |r| <= i < |u| ensures IsWhitespace(s[i]) {
        assert s[i] == u[i];
      }
    }
  }

  /** The trimmed string neither starts nor ends with whitespace. */
  lemma TrimSpec(s: string)
    ensures Trim(s) != [] ==> !IsWhitespace(Trim(s)[0]) && !IsWhitespace(Trim(s)[|Trim(s)| - 1])
  {
    var t := TrimStart(s);
    TrimStartSpec(s);
    TrimEndSpec(t);
    var r := TrimEnd(t);
    if r != [] {
      assert r[0] == t[0];
    }
  }

  /** `Trim(s)` is the infix of `s` starting at `k`, and everything outside it is
      whitespace: trimming removes whitespace and nothing else. */
  lemma TrimIsInfix(s: string) returns (k: nat)
    ensures k + |Trim(s)| <= |s| && Trim(s) == s[k..k + |Trim(s)|]
    ensures forall i :: 0 <= i < k ==> IsWhitespace(s[i])
    ensures forall i :: k + |Trim(s)| <= i < |s| ==> IsWhitespace(s[i])
  {
    TrimStartSpec(s);
    k := |s| - |TrimStart(s)|;
    TrimWindow(s, k);
    TrimDropsTrailingWhitespace(s, k);
  }

  lemma TrimWindow(s: string, k: nat)
    requires k == |s| - |TrimStart(s)| && TrimStart(s) == s[k..]
    ensures k + |Trim(s)| <= |s| && Trim(s) == s[k..k + |Trim(s)|]
  {
    TrimEndSpec(TrimStart(s));
  }

  lemma TrimDropsTrailingWhitespace(s: string, k: nat)
    requires k == |s| - |TrimStart(s)| && TrimStart(s) == s[k..]
    ensures forall i :: k + |Trim(s)| <= i < |s| ==> IsWhitespace(s[i])
  {
    var t := TrimStart(s);
    var r := TrimEnd(t);
    TrimEndSpec(t);
    forall i | k + |r| <= i < |s| ensures IsWhitespace(s[i]) {
      var j := i - k;
      assert |r| <= j < |t| && s[i] == t[j];
    }
  }

  /** A string trims to "" exactly when it consists of whitespace only. */
  lemma TrimEmptyIffAllWhitespace(s: string)
    ensures Trim(s) == "" <==> forall i :: 0 <= i < |s| ==> IsWhitespace(s[i])
  {
    var k := TrimIsInfix(s);
    TrimSpec(s);
    if Trim(s) != "" {
      assert Trim(s)[0] == s[k];
    }
  }

  /** A string without whitespace at either end is left as it is. */
  lemma TrimKeepsClean(s: string)
    requires s != [] ==> !IsWhitespace(s[0]) && !IsWhitespace(s[|s| - 1])
    ensures Trim(s) == s
  {
    assert TrimStart(s) == s;
  }

  /** Trimming twice is trimming once. */
  lemma TrimIdempotent(s: string)
    ensures Trim(Trim(s)) == Trim(s)
  {
    TrimSpec(s);
    TrimKeepsClean(Trim(s));
  }

  /** JavaScript truthiness of a possibly-undefined string: present and non-empty. */
  predicate Truthy(s: Option<string>) {
    s.Some? && s.value != ""
  }

  /** Decimal rendering of an integer, as a template literal `${n}` produces it. */
  function DecimalString(n: int): (r: string)
    ensures r != ""
    decreases if n < 0 then 1 - n else n
  {
    if n < 0 then "-" + DecimalString(-n)
    else if n < 10 then [Digit(n)]
    else DecimalString(n / 10) + [Digit(n % 10)]
  }

  function Digit(d: int): char
    requires 0 <= d < 10
  {
    "0123456789"[d]
  }

  /** Distinct digit values render as distinct characters, none of them '-'. */
  lemma DigitInjective(d: int, e: int)
    requires 0 <= d < 10 && 0 <= e < 10
    ensures Digit(d) != '-'
    ensures Digit(d) == Digit(e) ==> d == e
  {
  }

  /** The rendering of a non-negative number does not start with '-'. */
  lemma {:induction false} NonNegativeHasNoSign(n: int)
    requires n >= 0
    ensures DecimalString(n)[0] != '-'
    decreases n
  {
    if n < 10 {
      DigitInjective(n, n);
    } else {
      NonNegativeHasNoSign(n / 10);
    }
  }

  /** Distinct non-negative numbers have distinct renderings. */
  lemma {:induction false} NonNegativeDecimalInjective(a: int, b: int)
    requires a >= 0 && b >= 0 && DecimalString(a) == DecimalString(b)
    ensures a == b
    decreases a
  {
    var s := DecimalString(a);
    if a < 10 && b < 10 {
      DigitInjective(a, b);
    } else if a >= 10 && b >= 10 {
      var pa, pb := DecimalString(a / 10), DecimalString(b / 10);
      assert s == pa + [Digit(a % 10)] && s == pb + [Digit(b % 10)];
      assert |pa| == |pb|;
      assert pa == s[..|s| - 1] == pb;
      DigitInjective(a % 10, b % 10);
      NonNegativeDecimalInjective(a / 10, b / 10);
    } else {
      // one rendering has a single character, the other at least two
      assert false;
    }
  }

  /** Distinct integers have distinct renderings: the text names its number. */
  lemma DecimalStringInjective(a: int, b: int)
    requires DecimalString(a) == DecimalString(b)
    ensures a == b
  {
    if a < 0 && b < 0 {
      assert DecimalString(-a) == DecimalString(a)[1..] == DecimalString(-b);
      NonNegativeDecimalInjective(-a, -b);
    } else if a >= 0 && b >= 0 {
      NonNegativeDecimalInjective(a, b);
    } else if a < 0 {
      NonNegativeHasNoSign(b);
    } else {
      NonNegativeHasNoSign(a);
    }
  }
}
