/**
 * The few pieces of JavaScript's string library the verification core relies on:
 * `String.prototype.trim`, `toLowerCase`, `replace(/\D/g, "")`, `slice(-4)` and the
 * e-mail regular expression `/^[^\s@]+@[^\s@]+\.[^\s@]+$/`.
 *
 * Whitespace is the ECMAScript WhiteSpace and LineTerminator set (what `trim` strips and
 * what `\s` matches). Case folding is ASCII only.
 */
module JsStrings {

  /**
   * ECMAScript WhiteSpace (TAB, VT, FF, SP, NBSP, ZWNBSP and the space separators of
   * category Zs) and LineTerminator (LF, CR, LS, PS).
   */
  const WhiteSpace: set<char> := {
    '\t', '\n', '\U{000B}', '\U{000C}', '\r', ' ', '\U{00A0}', '\U{1680}',
    '\U{2000}', '\U{2001}', '\U{2002}', '\U{2003}', '\U{2004}', '\U{2005}',
    '\U{2006}', '\U{2007}', '\U{2008}', '\U{2009}', '\U{200A}',
    '\U{2028}', '\U{2029}', '\U{202F}', '\U{205F}', '\U{3000}', '\U{FEFF}'
  }

  predicate IsWhiteSpace(c: char) {
    c in WhiteSpace
  }

  predicate IsDigit(c: char) {
    '0' <= c <= '9'
  }

  /** True when every character is whitespace: the strings that `trim` turns into "". */
  predicate IsBlank(s: string) {
    forall c :: c in s ==> IsWhiteSpace(c)
  }

  /** Strips leading whitespace. */
  function TrimStart(s: string): (r: string)
    ensures |r| <= |s| && r == s[|s| - |r|..]
    ensures forall i :: 0 <= i < |s| - |r| ==> IsWhiteSpace(s[i])
    ensures r == [] || !IsWhiteSpace(r[0])
  {
    if |s| > 0 && IsWhiteSpace(s[0]) then TrimStart(s[1..]) else s
  }

  /** Strips trailing whitespace. */
  function TrimEnd(s: string): (r: string)
    ensures |r| <= |s| && r == s[..|r|]
    ensures forall i :: |r| <= i < |s| ==> IsWhiteSpace(s[i])
    ensures r == [] || !IsWhiteSpace(r[|r| - 1])
  {
    if |s| > 0 && IsWhiteSpace(s[|s| - 1]) then TrimEnd(s[..|s| - 1]) else s
  }

  /** `s.trim()`: the result neither starts nor ends with whitespace. */
  function Trim(s: string): (r: string)
    ensures |r| <= |s|
    ensures r == [] || (!IsWhiteSpace(r[0]) && !IsWhiteSpace(r[|r| - 1]))
  {
    var t := TrimStart(s);
    TrimEnd(t)
  }

  /** `trimStart` cuts a whitespace-only prefix. */
  lemma TrimStartSplits(s: string) returns (pre: string)
    ensures s == pre + TrimStart(s) && IsBlank(pre)
  {
    var r := TrimStart(s);
    pre := s[..|s| - |r|];
    assert s == pre + r;
    forall i | 0 <= i < |pre| ensures IsWhiteSpace(pre[i]) {
      assert pre[i] == s[i];
    }
  }

  /** `trimEnd` cuts a whitespace-only suffix. */
  lemma TrimEndSplits(t: string) returns (post: string)
    ensures t == TrimEnd(t) + post && IsBlank(post)
  {
    var n := |TrimEnd(t)|;
    post := t[n..];
    forall i | 0 <= i < |post| ensures IsWhiteSpace(post[i]) {
      assert post[i] == t[n + i];
    }
  }

  /** What `trim` cuts away: the input is a blank prefix, the result, then a blank suffix. */
  lemma TrimSplits(s: string) returns (pre: string, post: string)
    ensures s == pre + Trim(s) + post
    ensures IsBlank(pre) && IsBlank(post)
  {
    pre := TrimStartSplits(s);
    post := TrimEndSplits(TrimStart(s));
    Regroup(s, pre, TrimStart(s), Trim(s), post);
  }

  lemma Regroup(s: string, pre: string, t: string, r: string, post: string)
    requires s == pre + t && t == r + post
    ensures s == pre + r + post
  {
    assert s == pre + r + post;
  }

  lemma {:induction false} TrimStartBlankPrefix(a: string, x: string)
    requires IsBlank(a)
    requires x == [] || !IsWhiteSpace(x[0])
    ensures TrimStart(a + x) == x
    decreases |a|
  {
    if |a| > 0 {
      assert (a + x)[1..] == a[1..] + x;
      TrimStartBlankPrefix(a[1..], x);
    } else {
      assert a + x == x;
    }
  }

  lemma {:induction false} TrimEndBlankSuffix(x: string, b: string)
    requires IsBlank(b)
    requires x == [] || !IsWhiteSpace(x[|x| - 1])
    ensures TrimEnd(x + b) == x
    decreases |b|
  {
    if |b| > 0 {
      assert (x + b)[..|x + b| - 1] == x + b[..|b| - 1];
      TrimEndBlankSuffix(x, b[..|b| - 1]);
    } else {
      assert x + b == x;
    }
  }

  /**
   * `trim` is determined by its characterisation: whatever blank padding surrounds a core
   * that neither starts nor ends with whitespace, trimming gives back exactly that core.
   */
  lemma TrimUnique(a: string, m: string, b: string)
    requires IsBlank(a) && IsBlank(b)
    requires m == [] || (!IsWhiteSpace(m[0]) && !IsWhiteSpace(m[|m| - 1]))
    ensures Trim(a + m + b) == m
  {
    if m == [] {
      assert a + m + b == (a + b) + [];
      TrimStartBlankPrefix(a + b, []);
    } else {
      assert a + m + b == a + (m + b);
      TrimStartBlankPrefix(a, m + b);
      TrimEndBlankSuffix(m, b);
    }
  }

  lemma BlankConcat(a: string, b: string)
    requires IsBlank(a) && IsBlank(b)
    ensures IsBlank(a + b)
  {
    forall i | 0 <= i < |a + b| ensures IsWhiteSpace((a + b)[i]) {
      if i < |a| { assert (a + b)[i] == a[i]; } else { assert (a + b)[i] == b[i - |a|]; }
    }
  }

  lemma TrimRepadded(pre: string, lead: string, m: string, trail: string, post: string)
    requires IsBlank(pre) && IsBlank(lead) && IsBlank(trail) && IsBlank(post)
    requires m == [] || (!IsWhiteSpace(m[0]) && !IsWhiteSpace(m[|m| - 1]))
    ensures Trim(pre + (lead + m + trail) + post) == m
  {
    BlankConcat(pre, lead);
    BlankConcat(trail, post);
    assert pre + (lead + m + trail) + post == (pre + lead) + m + (trail + post);
    TrimUnique(pre + lead, m, trail + post);
  }

  /** A string without whitespace at either end is its own trim. */
  lemma TrimUnpadded(s: string)
    requires s == [] || (!IsWhiteSpace(s[0]) && !IsWhiteSpace(s[|s| - 1]))
    ensures Trim(s) == s
  {
    assert s == [] + s + [];
    TrimUnique([], s, []);
  }

  /** Extra whitespace around a string does not change what it trims to. */
  lemma TrimPadded(pre: string, s: string, post: string)
    requires IsBlank(pre) && IsBlank(post)
    ensures Trim(pre + s + post) == Trim(s)
  {
    var lead, trail := TrimSplits(s);
    TrimRepadded(pre, lead, Trim(s), trail, post);
  }

  /** A string trims to "" exactly when it is whitespace only. */
  lemma TrimEmptyIffBlank(s: string)
    ensures Trim(s) == [] <==> IsBlank(s)
  {
    if IsBlank(s) {
      assert s == s + [] + [];
      TrimUnique(s, [], []);
    }
  }

  /** Trimming twice is trimming once. */
  lemma TrimIdempotent(s: string)
    ensures Trim(Trim(s)) == Trim(s)
  {
    var r := Trim(s);
    assert r == [] + r + [];
    TrimUnique([], r, []);
  }

  /** ASCII case folding: 'A'..'Z' become 'a'..'z', every other character is kept. */
  function LowerChar(c: char): (d: char)
    ensures IsWhiteSpace(d) <==> IsWhiteSpace(c)
    ensures 'A' <= c <= 'Z' ==> 'a' <= d <= 'z' && d as int - c as int == 32
    ensures !('A' <= c <= 'Z') ==> d == c
  {
    if 'A' <= c <= 'Z' then (c as int + 32) as char else c
  }

  /** `s.toLowerCase()` with ASCII case folding. */
  function ToLower(s: string): (r: string)
    ensures |r| == |s|
    ensures forall i :: 0 <= i < |s| ==> r[i] == LowerChar(s[i])
  {
    seq(|s|, i requires 0 <= i < |s| => LowerChar(s[i]))
  }

  lemma {:induction false} TrimStartToLower(s: string)
    ensures TrimStart(ToLower(s)) == ToLower(TrimStart(s))
    decreases |s|
  {
    if |s| > 0 && IsWhiteSpace(s[0]) {
      assert ToLower(s)[1..] == ToLower(s[1..]);
      TrimStartToLower(s[1..]);
    }
  }

  lemma {:induction false} TrimEndToLower(s: string)
    ensures TrimEnd(ToLower(s)) == ToLower(TrimEnd(s))
    decreases |s|
  {
    if |s| > 0 && IsWhiteSpace(s[|s| - 1]) {
      assert ToLower(s)[..|s| - 1] == ToLower(s[..|s| - 1]);
      TrimEndToLower(s[..|s| - 1]);
    }
  }

  /** Case folding leaves whitespace alone, so it commutes with trimming. */
  lemma TrimToLowerCommute(s: string)
    ensures Trim(ToLower(s)) == ToLower(Trim(s))
  {
    TrimStartToLower(s);
    TrimEndToLower(TrimStart(s));
  }

  /**
   * `s.toLowerCase().trim()`: the comparison key for holder and bank names. Folding first or
   * trimming first gives the same key.
   */
  function Normalize(s: string): (r: string)
  {
    Trim(ToLower(s))
  }

  /**
   * Trimming before normalising changes nothing: the verifiers trim their inputs and then
   * compare normalised values, which is the same as comparing the normalised raw inputs.
   */
  lemma NormalizeTrim(s: string)
    ensures Normalize(Trim(s)) == Normalize(s)
  {
    TrimToLowerCommute(s);
    TrimToLowerCommute(Trim(s));
    TrimIdempotent(s);
  }

  /** Names that differ only in ASCII case and surrounding whitespace normalise alike. */
  lemma NormalizeIgnoresCaseAndPadding(s: string, t: string, pre: string, post: string)
    requires ToLower(s) == ToLower(t)
    requires IsBlank(pre) && IsBlank(post)
    ensures Normalize(pre + s + post) == Normalize(t)
  {
    TrimToLowerCommute(pre + s + post);
    TrimPadded(pre, s, post);
    TrimToLowerCommute(s);
  }

  /** `s.replace(/\D/g, "")`: the digits of s, in order. */
  function Digits(s: string): (r: string)
    ensures |r| <= |s|
    ensures forall i :: 0 <= i < |r| ==> IsDigit(r[i])
    ensures (forall i :: 0 <= i < |s| ==> IsDigit(s[i])) ==> r == s
  {
    if |s| == 0 then []
    else if IsDigit(s[0]) then [s[0]] + Digits(s[1..])
    else Digits(s[1..])
  }

  /** Removing non-digits piece by piece is removing them from the whole. */
  lemma {:induction false} DigitsAppend(s: string, t: string)
    ensures Digits(s + t) == Digits(s) + Digits(t)
    decreases |s|
  {
    if |s| > 0 {
      assert (s + t)[1..] == s[1..] + t;
      DigitsAppend(s[1..], t);
    } else {
      assert s + t == t;
    }
  }

  /** `s.slice(-4)`: the last four characters, or all of s when it is shorter. */
  function LastFour(s: string): (r: string)
    ensures |r| == if |s| < 4 then |s| else 4
    ensures s == s[..|s| - |r|] + r
  {
    if |s| < 4 then s else s[|s| - 4..]
  }

  /** A run of one or more characters that are neither whitespace nor '@' (the class [^\s@]+). */
  predicate IsAddressRun(s: string) {
    |s| > 0 && forall i :: 0 <= i < |s| ==> !IsWhiteSpace(s[i]) && s[i] != '@'
  }

  /** The domain part `[^\s@]+\.[^\s@]+`: an address run with a '.' neither first nor last. */
  predicate IsDomain(s: string) {
    IsAddressRun(s) && exists d :: 0 < d < |s| - 1 && s[d] == '.'
  }

  /** `/^[^\s@]+@[^\s@]+\.[^\s@]+$/.test(s)` */
  predicate MatchesEmailPattern(s: string) {
    exists k :: 0 < k < |s| && s[k] == '@' && IsAddressRun(s[..k]) && IsDomain(s[k + 1..])
  }

  /** A string with no digits loses everything to `replace(/\D/g, "")`. */
  lemma {:induction false} DigitsOfNonDigits(s: string)
    requires forall i :: 0 <= i < |s| ==> !IsDigit(s[i])
    ensures Digits(s) == []
    decreases |s|
  {
    if |s| > 0 {
      DigitsOfNonDigits(s[1..]);
    }
  }

  /** Separators such as spaces, dashes and parentheses do not change the digits of a string. */
  lemma DigitsIgnoreSeparators(a: string, sep: string, b: string)
    requires forall i :: 0 <= i < |sep| ==> !IsDigit(sep[i])
    ensures Digits(a + sep + b) == Digits(a + b)
  {
    calc {
      Digits(a + sep + b);
      { DigitsAppend(a + sep, b); }
      Digits(a + sep) + Digits(b);
      { DigitsAppend(a, sep); DigitsOfNonDigits(sep); assert Digits(a) + [] == Digits(a); }
      Digits(a) + Digits(b);
      { DigitsAppend(a, b); }
      Digits(a + b);
    }
  }

  /** An address accepted by the e-mail pattern has no whitespace and exactly one '@'. */
  lemma EmailPatternShape(s: string)
    requires MatchesEmailPattern(s)
    ensures forall i :: 0 <= i < |s| ==> !IsWhiteSpace(s[i])
    ensures exists k :: 0 <= k < |s| && s[k] == '@' && forall i :: 0 <= i < |s| && s[i] == '@' ==> i == k
  {
    var k :| 0 < k < |s| && s[k] == '@' && IsAddressRun(s[..k]) && IsDomain(s[k + 1..]);
    forall i | 0 <= i < |s| && i != k ensures !IsWhiteSpace(s[i]) && s[i] != '@' {
      if i < k {
        assert s[i] == s[..k][i];
      } else {
        assert s[i] == s[k + 1..][i - k - 1];
      }
    }
  }
}
