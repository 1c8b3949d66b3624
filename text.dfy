/** String helpers with JavaScript's meaning: `trim`, `includes`, ASCII case
    folding and decimal rendering of natural numbers. */
module Text {

  /** The characters `String.prototype.trim` strips (WhiteSpace and
      LineTerminator of ECMAScript); `\s` in a regular expression matches the
      same set. */
  predicate IsJsWhitespace(c: char) {
    || c == '\t' || c == '\n' || c == '\U{B}' || c == '\U{C}' || c == '\r'
    || c == ' ' || c == '\U{A0}' || c == '\U{1680}'
    || ('\U{2000}' <= c <= '\U{200A}')
    || c == '\U{2028}' || c == '\U{2029}' || c == '\U{202F}' || c == '\U{205F}'
    || c == '\U{3000}' || c == '\U{FEFF}'
  }

  predicate AllWhitespace(s: string) {
    forall i :: 0 <= i < |s| ==> IsJsWhitespace(s[i])
  }

  /** Drops leading whitespace: the result is a suffix of `s`, everything
      dropped is whitespace and the result does not start with whitespace. */
  function TrimStart(s: string): (r: string)
    ensures |r| <= |s| && r == s[|s| - |r|..]
    ensures AllWhitespace(s[..|s| - |r|])
    ensures r != [] ==> !IsJsWhitespace(r[0])
  {
    if s != [] && IsJsWhitespace(s[0]) then
      var r := TrimStart(s[1..]);
      assert s[..|s| - |r|] == [s[0]] + s[1..][..|s| - 1 - |r|];
      r
    else s
  }

  /** Drops trailing whitespace: the result is a prefix of `s`, everything
      dropped is whitespace and the result does not end with whitespace. */
  function TrimEnd(s: string): (r: string)
    ensures |r| <= |s| && r == s[..|r|]
    ensures AllWhitespace(s[|r|..])
    ensures r != [] ==> !IsJsWhitespace(r[|r| - 1])
  {
    if s != [] && IsJsWhitespace(s[|s| - 1]) then
      var r := TrimEnd(s[..|s| - 1]);
      assert s[|r|..] == s[..|s| - 1][|r|..] + [s[|s| - 1]];
      r
    else s
  }

  /** `s.trim()` */
  function Trim(s: string): string {
    TrimEnd(TrimStart(s))
  }

  /** `!s.trim()`: the empty string is the only falsy string. */
  predicate IsBlank(s: string) {
    Trim(s) == ""
  }

  /** The trimmed text neither starts nor ends with whitespace. */
  lemma TrimEndsNotWhitespace(s: string)
    ensures Trim(s) != [] ==> !IsJsWhitespace(Trim(s)[0]) && !IsJsWhitespace(Trim(s)[|Trim(s)| - 1])
  {
    var t := TrimStart(s);
    var u := TrimEnd(t);
    if u != [] {
      assert u[0] == t[0];
    }
  }

  /** Trim removes exactly a whitespace prefix and a whitespace suffix and
      leaves a result that neither starts nor ends with whitespace. */
  lemma TrimShape(s: string)
    ensures exists i, j :: 0 <= i <= j <= |s| && Trim(s) == s[i..j]
                           && AllWhitespace(s[..i]) && AllWhitespace(s[j..])
    ensures Trim(s) != [] ==> !IsJsWhitespace(Trim(s)[0]) && !IsJsWhitespace(Trim(s)[|Trim(s)| - 1])
  {
    var t := TrimStart(s);
    var u := TrimEnd(t);
    var i := |s| - |t|;
    var j := i + |u|;
    assert Trim(s) == s[i..j] && AllWhitespace(s[j..]) by {
      assert t == s[i..] && u == t[..|u|];
      assert s[j..] == t[|u|..];
    }
    assert AllWhitespace(s[..i]);
    TrimEndsNotWhitespace(s);
  }

  /** A string is blank exactly when every character in it is whitespace. */
  lemma BlankIffAllWhitespace(s: string)
    ensures IsBlank(s) <==> AllWhitespace(s)
  {
    var t := TrimStart(s);
    var i := |s| - |t|;
    var u := TrimEnd(t);
    assert t == s[i..];
    if u == [] {
      assert t[|u|..] == t;
      forall k | 0 <= k < |s| ensures IsJsWhitespace(s[k]) {
        if k < i {
          assert s[..i][k] == s[k];
        } else {
          assert t[k - i] == s[k];
        }
      }
    } else {
      assert u[0] == t[0] == s[i];
    }
  }

  /** Trimming is idempotent. */
  lemma TrimIdempotent(s: string)
    ensures Trim(Trim(s)) == Trim(s)
  {
    var r := Trim(s);
    TrimShape(s);
    if r != [] {
      assert TrimStart(r) == r;
      assert TrimEnd(r) == r;
    }
  }

  /** `s.includes(p)` */
  predicate Contains(s: string, p: string)
    decreases |s|
  {
    p <= s || (s != [] && Contains(s[1..], p))
  }

  /** `p` occurs in `s` starting at index `i`. */
  predicate OccursAt(s: string, p: string, i: int) {
    0 <= i <= |s| - |p| && s[i..i + |p|] == p
  }

  /** `includes` finds `p` wherever it occurs. */
  lemma {:induction false} ContainsInside(a: string, p: string, b: string)
    ensures Contains(a + p + b, p)
    decreases |a|
  {
    if a == [] {
      assert a + p + b == p + b;
    } else {
      assert (a + p + b)[1..] == a[1..] + p + b;
      ContainsInside(a[1..], p, b);
    }
  }

  /** `includes` is true only when `p` occurs at some position of `s`. */
  lemma {:induction false} ContainsWitness(s: string, p: string)
    requires Contains(s, p)
    ensures exists i :: OccursAt(s, p, i)
    decreases |s|
  {
    if p <= s {
      assert OccursAt(s, p, 0);
    } else {
      ContainsWitness(s[1..], p);
      var i :| OccursAt(s[1..], p, i);
      assert s[1..][i..i + |p|] == s[i + 1..i + 1 + |p|];
      assert OccursAt(s, p, i + 1);
    }
  }

  /** Lower-cases the letters A-Z and leaves every other character alone. For
      the patterns the widget tests ("dress", "tablet", "ipad", ...) this is
      exactly JavaScript's `toLowerCase` and the `/i` flag: no non-ASCII
      character folds onto one of their letters. */
  function LowerChar(c: char): (r: char)
    ensures 'A' <= c <= 'Z' ==> 'a' <= r <= 'z' && r as int == c as int + 32
    ensures !('A' <= c <= 'Z') ==> r == c
  {
    if 'A' <= c <= 'Z' then (c as int + 32) as char else c
  }

  function AsciiLower(s: string): (r: string)
    ensures |r| == |s|
    ensures forall i :: 0 <= i < |s| && 'A' <= s[i] <= 'Z' ==> r[i] as int == s[i] as int + 32
    ensures forall i :: 0 <= i < |s| && !('A' <= s[i] <= 'Z') ==> r[i] == s[i]
  {
    seq(|s|, i requires 0 <= i < |s| => LowerChar(s[i]))
  }

  function Digit(d: nat): char
    requires d < 10
  {
    "0123456789"[d]
  }

  /** Decimal rendering of a natural number (`${n}` in a template). */
  function NatToString(n: nat): (r: string)
    ensures |r| >= 1
    ensures forall i :: 0 <= i < |r| ==> '0' <= r[i] <= '9'
    decreases n
  {
    if n < 10 then [Digit(n)] else NatToString(n / 10) + [Digit(n % 10)]
  }
}
