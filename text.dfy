/**
 * The string operations the client and the server use on messages:
 * `String.prototype.startsWith`, ASCII `toLowerCase`, decimal rendering of
 * integers, and the first capture of the regular expression /"([^"]+)"/.
 */
module Text {
  import opened Wrappers

  /** `s.startsWith(prefix)` */
  predicate StartsWith(s: string, prefix: string) {
    |prefix| <= |s| && s[..|prefix|] == prefix
  }

  /** Lower-cases one character of the ASCII range; every other character is kept. */
  function LowerChar(c: char): (r: char)
    ensures 'A' <= c <= 'Z' ==> 'a' <= r <= 'z'
    ensures !('A' <= c <= 'Z') ==> r == c
  {
    if 'A' <= c <= 'Z' then (c as int + 32) as char else c
  }

  /** `s.toLowerCase()` restricted to ASCII letters. */
  function ToLower(s: string): (r: string)
    ensures |r| == |s|
    ensures forall i :: 0 <= i < |s| ==> r[i] == LowerChar(s[i])
  {
    seq(|s|, i requires 0 <= i < |s| => LowerChar(s[i]))
  }

  /** Lower-casing works character by character, so it distributes over concatenation. */
  lemma ToLowerConcat(a: string, b: string)
    ensures ToLower(a + b) == ToLower(a) + ToLower(b)
  {
    var l, r := ToLower(a + b), ToLower(a) + ToLower(b);
    assert |l| == |r|;
    forall i | 0 <= i < |l| ensures l[i] == r[i] {
      if i < |a| {
        assert (a + b)[i] == a[i];
      } else {
        assert (a + b)[i] == b[i - |a|];
      }
    }
  }

  /** A string with no upper-case letter after its first character lower-cases at its head only. */
  lemma LowerFirstOnly(s: string)
    requires |s| > 0 && forall i :: 1 <= i < |s| ==> !('A' <= s[i] <= 'Z')
    ensures ToLower(s) == [LowerChar(s[0])] + s[1..]
  {
    var l, r := ToLower(s), [LowerChar(s[0])] + s[1..];
    assert |l| == |r|;
    forall i | 0 <= i < |l| ensures l[i] == r[i] {
    }
  }

  function DigitChar(d: nat): (c: char)
    requires d < 10
    ensures '0' <= c <= '9'
  {
    "0123456789"[d]
  }

  /** The decimal digits of `n`, most significant first, without leading zeros. */
  function NatToString(n: nat): (r: string)
    ensures |r| >= 1
    ensures forall i :: 0 <= i < |r| ==> '0' <= r[i] <= '9'
    ensures n > 0 ==> r[0] != '0'
  {
    if n < 10 then [DigitChar(n)] else NatToString(n / 10) + [DigitChar(n % 10)]
  }

  /** The decimal rendering of an integer, as both `String(n)` and Java's `"" + n` produce it. */
  function IntToString(n: int): (r: string)
    ensures |r| >= 1
    ensures n < 0 <==> r[0] == '-'
  {
    if n < 0 then "-" + NatToString(-n) else NatToString(n)
  }

  /** The value of a string of decimal digits. */
  function DigitsValue(s: string): nat
    requires forall i :: 0 <= i < |s| ==> '0' <= s[i] <= '9'
  {
    if s == [] then 0 else 10 * DigitsValue(s[..|s| - 1]) + (s[|s| - 1] as int - '0' as int)
  }

  /** Rendering a natural number and reading its digits back gives the number again. */
  lemma {:induction false} NatToStringRoundTrip(n: nat)
    ensures DigitsValue(NatToString(n)) == n
  {
    var s := NatToString(n);
    if n < 10 {
      assert "0123456789"[n] as int - '0' as int == n;
    } else {
      NatToStringRoundTrip(n / 10);
      var p := NatToString(n / 10);
      assert s == p + [DigitChar(n % 10)];
      assert s[..|s| - 1] == p;
      assert "0123456789"[n % 10] as int - '0' as int == n % 10;
    }
  }

  /** Different natural numbers render differently. */
  lemma NatToStringInjective(m: nat, n: nat)
    requires NatToString(m) == NatToString(n)
    ensures m == n
  {
    NatToStringRoundTrip(m);
    NatToStringRoundTrip(n);
  }

  /** Different integers render differently. */
  lemma IntToStringInjective(a: int, b: int)
    requires IntToString(a) == IntToString(b)
    ensures a == b
  {
    var ra, rb := IntToString(a), IntToString(b);
    assert (a < 0) == (b < 0);
    if a < 0 {
      assert ra == "-" + NatToString(-a) && rb == "-" + NatToString(-b);
      assert ra[1..] == NatToString(-a) && rb[1..] == NatToString(-b);
      NatToStringInjective(-a, -b);
    } else {
      NatToStringInjective(a, b);
    }
  }

  /** The index of the first occurrence of `c` in `s`, if any. */
  function IndexOf(s: string, c: char): (r: Option<nat>)
    ensures r.Some? ==> r.value < |s| && s[r.value] == c && forall k :: 0 <= k < r.value ==> s[k] != c
    ensures r.None? ==> forall k :: 0 <= k < |s| ==> s[k] != c
  {
    if s == [] then None
    else if s[0] == c then Some(0)
    else match IndexOf(s[1..], c)
      case None => None
      case Some(i) => Some(i + 1)
  }

  /**
   * `s[i]` and `s[j]` are double quotes enclosing at least one character and no
   * further double quote: the regular expression /"([^"]+)"/ matches `s[i..j+1]`.
   */
  ghost predicate QuotedAt(s: string, i: int, j: int) {
    && 0 <= i && i + 1 < j < |s|
    && s[i] == '"' && s[j] == '"'
    && forall k :: i < k < j ==> s[k] != '"'
  }

  /**
   * The first capture group of `s.match(/"([^"]+)"/)`: the text between the
   * leftmost pair of double quotes that encloses something, or None when the
   * regular expression does not match.
   */
  function FirstQuoted(s: string): Option<string>
    decreases |s|
  {
    match IndexOf(s, '"')
    case None => None
    case Some(i) =>
      var rest := s[i + 1..];
      match IndexOf(rest, '"')
      case None => None
      case Some(j) => if j == 0 then FirstQuoted(rest) else Some(rest[..j])
  }

  /** A quoted segment of `s[i + 1..]` is a quoted segment of `s`, shifted by `i + 1`. */
  lemma QuotedAtShiftUp(s: string, i: nat, a: int, b: int)
    requires i < |s| && QuotedAt(s[i + 1..], a, b)
    ensures QuotedAt(s, a + i + 1, b + i + 1)
  {
    var rest := s[i + 1..];
    assert s[a + i + 1] == rest[a] && s[b + i + 1] == rest[b];
    forall k | a + i + 1 < k < b + i + 1 ensures s[k] != '"' {
      assert s[k] == rest[k - i - 1];
    }
  }

  /**
   * When `s[i]` is the first double quote of `s` and `s[i + 1]` is another one,
   * every quoted segment of `s` lies inside `s[i + 1..]`.
   */
  lemma QuotedAtShiftDown(s: string, i: nat, a: int, b: int)
    requires i + 1 < |s| && s[i] == '"' && s[i + 1] == '"'
    requires forall k :: 0 <= k < i ==> s[k] != '"'
    requires QuotedAt(s, a, b)
    ensures QuotedAt(s[i + 1..], a - i - 1, b - i - 1)
  {
    var rest := s[i + 1..];
    assert s[a] == '"';
    assert a != i by {
      assert s[i + 1] == '"';
    }
    assert rest[a - i - 1] == s[a] && rest[b - i - 1] == s[b];
    forall k | a - i - 1 < k < b - i - 1 ensures rest[k] != '"' {
      assert rest[k] == s[k + i + 1];
    }
  }

  /**
   * FirstQuoted agrees with the leftmost-match semantics of the regular
   * expression: it fails exactly when no quoted, non-empty segment exists, and
   * otherwise returns the segment that starts at the leftmost possible quote.
   */
  lemma {:induction false} FirstQuotedCorrect(s: string)
    ensures FirstQuoted(s).None? <==> forall i, j :: !QuotedAt(s, i, j)
    ensures FirstQuoted(s).Some? ==>
      exists i, j :: QuotedAt(s, i, j) && FirstQuoted(s).value == s[i + 1..j]
                     && forall i2, j2 :: QuotedAt(s, i2, j2) ==> i <= i2
    decreases |s|
  {
    match IndexOf(s, '"')
    case None =>
      forall i, j | 0 <= i < |s| ensures !QuotedAt(s, i, j) {
        assert s[i] != '"';
      }
    case Some(i) =>
      var rest := s[i + 1..];
      match IndexOf(rest, '"')
      case None =>
        NoClosingQuote(s, i);
      case Some(j) =>
        if j == 0 {
          DoubledQuote(s, i);
        } else {
          FirstSegment(s, i, j);
        }
  }

  lemma NoClosingQuote(s: string, i: nat)
    requires i < |s| && s[i] == '"'
    requires forall k :: 0 <= k < i ==> s[k] != '"'
    requires IndexOf(s[i + 1..], '"').None?
    ensures forall i2, j2 :: !QuotedAt(s, i2, j2)
  {
    var rest := s[i + 1..];
    forall i2, j2 | 0 <= i2 < j2 < |s| && s[i2] == '"' ensures s[j2] != '"' {
      assert i <= i2;
      assert rest[j2 - i - 1] == s[j2];
    }
  }

  lemma FirstSegment(s: string, i: nat, j: nat)
    requires i < |s| && s[i] == '"'
    requires forall k :: 0 <= k < i ==> s[k] != '"'
    requires IndexOf(s[i + 1..], '"') == Some(j) && j > 0
    ensures QuotedAt(s, i, i + 1 + j) && s[i + 1..][..j] == s[i + 1..i + 1 + j]
    ensures forall i2, j2 :: QuotedAt(s, i2, j2) ==> i <= i2
  {
    var rest := s[i + 1..];
    assert s[i + 1 + j] == rest[j];
    forall k | i < k < i + 1 + j ensures s[k] != '"' {
      assert s[k] == rest[k - i - 1];
    }
    forall i2, j2 | QuotedAt(s, i2, j2) ensures i <= i2 {
      assert s[i2] == '"';
    }
  }

  lemma {:induction false} DoubledQuote(s: string, i: nat)
    requires i + 1 < |s| && s[i] == '"' && s[i + 1] == '"'
    requires forall k :: 0 <= k < i ==> s[k] != '"'
    ensures FirstQuoted(s) == FirstQuoted(s[i + 1..])
    ensures FirstQuoted(s).None? <==> forall i, j :: !QuotedAt(s, i, j)
    ensures FirstQuoted(s).Some? ==>
      exists i, j :: QuotedAt(s, i, j) && FirstQuoted(s).value == s[i + 1..j]
                     && forall i2, j2 :: QuotedAt(s, i2, j2) ==> i <= i2
    decreases |s|, 0
  {
    var rest := s[i + 1..];
    assert IndexOf(s, '"') == Some(i);
    assert rest[0] == '"';
    assert IndexOf(rest, '"') == Some(0);
    FirstQuotedCorrect(rest);
    if FirstQuoted(rest).Some? {
      var a, b :| QuotedAt(rest, a, b) && FirstQuoted(rest).value == rest[a + 1..b]
                  && forall i2, j2 :: QuotedAt(rest, i2, j2) ==> a <= i2;
      QuotedAtShiftUp(s, i, a, b);
      assert rest[a + 1..b] == s[a + i + 2..b + i + 1];
      forall i2, j2 | QuotedAt(s, i2, j2) ensures a + i + 1 <= i2 {
        QuotedAtShiftDown(s, i, i2, j2);
      }
    } else {
      forall i2, j2 ensures !QuotedAt(s, i2, j2) {
        if QuotedAt(s, i2, j2) {
          QuotedAtShiftDown(s, i, i2, j2);
        }
      }
    }
  }

  /**
   * A message of the shape `p"x"q`, where `p` and `x` contain no double quote
   * and `x` is not empty, has `x` as its first quoted segment.
   */
  lemma QuotedNameOfMessage(p: string, x: string, q: string)
    requires forall k :: 0 <= k < |p| ==> p[k] != '"'
    requires forall k :: 0 <= k < |x| ==> x[k] != '"'
    requires x != []
    ensures FirstQuoted(p + "\"" + x + "\"" + q) == Some(x)
  {
    var s := p + "\"" + x + "\"" + q;
    assert s[|p|] == '"';
    forall k | 0 <= k < |p| ensures s[k] != '"' { assert s[k] == p[k]; }
    assert IndexOf(s, '"') == Some(|p|);
    var rest := s[|p| + 1..];
    assert rest == x + "\"" + q;
    assert rest[|x|] == '"';
    forall k | 0 <= k < |x| ensures rest[k] != '"' { assert rest[k] == x[k]; }
    assert IndexOf(rest, '"') == Some(|x|);
    assert rest[..|x|] == x;
  }
}
