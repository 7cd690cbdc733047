/** String operations of the ECMAScript runtime that the theming routine relies on:
    String.prototype.trim, toLowerCase, split with a one-character separator,
    and the conversion of an integral Number to its decimal text. */
module Text {

  /** The characters trim removes: ECMAScript WhiteSpace and LineTerminator. Below U+00A0 these
      are the space and the controls tab, line feed, vertical tab, form feed and carriage return. */
  predicate IsWhiteSpace(c: char) {
    if c < '\U{00A0}' then c == ' ' || '\t' <= c <= '\r' else IsWideWhiteSpace(c)
  }

  /** The white space from U+00A0 on: no-break space, the Unicode space separators, the line and
      paragraph separators, and the byte order mark. */
  predicate IsWideWhiteSpace(c: char) {
    c == '\U{00A0}' || c == '\U{1680}' || ('\U{2000}' <= c <= '\U{200A}')
    || c == '\U{2028}' || c == '\U{2029}' || c == '\U{202F}' || c == '\U{205F}'
    || c == '\U{3000}' || c == '\U{FEFF}'
  }

  /** Removes leading white space. */
  function TrimStart(s: string): string {
    if s != [] && IsWhiteSpace(s[0]) then TrimStart(s[1..]) else s
  }

  /** Removes trailing white space. */
  function TrimEnd(s: string): string {
    if s != [] && IsWhiteSpace(s[|s| - 1]) then TrimEnd(s[..|s| - 1]) else s
  }

  /** TrimStart keeps a suffix of `s` that does not begin with white space, and everything it
      drops is white space. */
  lemma {:induction false} TrimStartIsSuffix(s: string)
    ensures |TrimStart(s)| <= |s| && TrimStart(s) == s[|s| - |TrimStart(s)|..]
    ensures TrimStart(s) == [] || !IsWhiteSpace(TrimStart(s)[0])
    ensures forall i :: 0 <= i < |s| - |TrimStart(s)| ==> IsWhiteSpace(s[i])
  {
    if s != [] && IsWhiteSpace(s[0]) {
      var u, t := s[1..], TrimStart(s[1..]);
      TrimStartIsSuffix(u);
      assert TrimStart(s) == t;
      assert u[|u| - |t|..] == s[|s| - |t|..];
      forall i | 0 <= i < |s| - |t| ensures IsWhiteSpace(s[i]) {
        if i > 0 {
          assert s[i] == u[i - 1];
        }
      }
    }
  }

  /** TrimEnd keeps a prefix of `s` that does not end with white space, and everything it drops
      is white space. */
  lemma {:induction false} TrimEndIsPrefix(s: string)
    ensures |TrimEnd(s)| <= |s| && TrimEnd(s) == s[..|TrimEnd(s)|]
    ensures TrimEnd(s) == [] || !IsWhiteSpace(TrimEnd(s)[|TrimEnd(s)| - 1])
    ensures forall i :: |TrimEnd(s)| <= i < |s| ==> IsWhiteSpace(s[i])
  {
    if s != [] && IsWhiteSpace(s[|s| - 1]) {
      TrimEndIsPrefix(s[..|s| - 1]);
    }
  }

  /** String.prototype.trim. */
  function Trim(s: string): string {
    TrimEnd(TrimStart(s))
  }

  /** The number of white-space characters that lead `s`. */
  function LeadingWhiteSpace(s: string): nat {
    TrimStartIsSuffix(s);
    |s| - |TrimStart(s)|
  }

  /** Trim keeps exactly the middle of `s`: the slice that starts after the leading white space,
      bordered by non-white-space characters, with only white space cut away on either side. */
  lemma TrimIsSlice(s: string)
    ensures LeadingWhiteSpace(s) + |Trim(s)| <= |s|
    ensures Trim(s) == s[LeadingWhiteSpace(s)..LeadingWhiteSpace(s) + |Trim(s)|]
    ensures forall k :: 0 <= k < LeadingWhiteSpace(s) ==> IsWhiteSpace(s[k])
    ensures forall k :: LeadingWhiteSpace(s) + |Trim(s)| <= k < |s| ==> IsWhiteSpace(s[k])
    ensures Trim(s) == [] || (!IsWhiteSpace(Trim(s)[0]) && !IsWhiteSpace(Trim(s)[|Trim(s)| - 1]))
  {
    var t := TrimStart(s);
    var i := |s| - |t|;
    var r := TrimEnd(t);
    TrimStartIsSuffix(s);
    TrimEndIsPrefix(t);
    assert t == s[i..];
    assert r == t[..|r|];
    assert r == s[i..i + |r|];
    forall k | i + |r| <= k < |s| ensures IsWhiteSpace(s[k]) {
      assert s[k] == t[k - i];
    }
    if r != [] {
      assert r[0] == t[0];
    }
  }

  /** Trimming twice is trimming once. */
  lemma TrimIdempotent(s: string)
    ensures Trim(Trim(s)) == Trim(s)
  {
    var r := Trim(s);
    TrimIsSlice(s);
    assert TrimStart(r) == r;
    assert TrimEnd(r) == r;
  }

  /** A string containing a character that is not white space does not trim to the empty string. */
  lemma TrimNonEmpty(s: string, k: nat)
    requires k < |s| && !IsWhiteSpace(s[k])
    ensures Trim(s) != []
  {
    TrimIsSlice(s);
  }

  /** A string that neither starts nor ends with white space is its own trim. */
  lemma TrimUnchanged(s: string)
    requires s == [] || (!IsWhiteSpace(s[0]) && !IsWhiteSpace(s[|s| - 1]))
    ensures Trim(s) == s
  {
  }

  /** The Kelvin sign, the one character outside ASCII whose lower case is an ASCII letter. */
  const KelvinSign: char := '\U{212A}'

  /** toLowerCase on one character, for the ASCII letters and the Kelvin sign, which lowers to k. */
  function LowerChar(c: char): (r: char)
    ensures !('A' <= r <= 'Z')
    ensures r == c || ('A' <= c <= 'Z' && r as int == c as int + 32) || (c == KelvinSign && r == 'k')
  {
    if 'A' <= c <= 'Z' then (c as int + 32) as char else if c == KelvinSign then 'k' else c
  }

  /** String.prototype.toLowerCase restricted to ASCII letters. */
  function ToLower(s: string): (r: string)
    ensures |r| == |s|
    ensures forall i :: 0 <= i < |s| ==> r[i] == LowerChar(s[i])
  {
    seq(|s|, i requires 0 <= i < |s| => LowerChar(s[i]))
  }

  /** Lower-casing twice is lower-casing once. */
  lemma ToLowerIdempotent(s: string)
    ensures ToLower(ToLower(s)) == ToLower(s)
  {
  }

  /** String.prototype.split with a one-character separator: the pieces between separators,
      empty pieces included. */
  function Split(s: string, sep: char): seq<string> {
    if s == [] then [""]
    else
      var rest := Split(s[1..], sep);
      if s[0] == sep then [""] + rest
      else [[s[0]] + rest[0]] + rest[1..]
  }

  /** A text with k separators splits into k + 1 pieces, none of which holds a separator. */
  lemma {:induction false} SplitPieces(s: string, sep: char)
    ensures |Split(s, sep)| == multiset(s)[sep] + 1
    ensures forall i :: 0 <= i < |Split(s, sep)| ==> sep !in Split(s, sep)[i]
  {
    if s != [] {
      SplitPieces(s[1..], sep);
      assert s == [s[0]] + s[1..];
      assert multiset(s) == multiset{s[0]} + multiset(s[1..]);
    }
  }

  /** Array.prototype.join with a one-character separator. */
  function Join(parts: seq<string>, sep: char): string
    requires |parts| >= 1
  {
    if |parts| == 1 then parts[0] else parts[0] + [sep] + Join(parts[1..], sep)
  }

  /** Joining the pieces of a split restores the original text. */
  lemma {:induction false} JoinSplit(s: string, sep: char)
    ensures Join(Split(s, sep), sep) == s
  {
    if s != [] {
      var rest := Split(s[1..], sep);
      JoinSplit(s[1..], sep);
      if s[0] != sep {
        if |rest| > 1 {
          assert rest == [rest[0]] + rest[1..];
          assert Join(rest, sep) == rest[0] + [sep] + Join(rest[1..], sep);
        }
      }
    }
  }

  /** Splitting a join of separator-free pieces gives the pieces back. */
  lemma {:induction false} SplitJoin(parts: seq<string>, sep: char)
    requires |parts| >= 1
    requires forall i :: 0 <= i < |parts| ==> sep !in parts[i]
    ensures Split(Join(parts, sep), sep) == parts
  {
    if |parts| == 1 {
      SplitPiece(parts[0], [], sep);
    } else {
      SplitJoin(parts[1..], sep);
      SplitPiece(parts[0], Join(parts[1..], sep), sep);
      assert parts == [parts[0]] + parts[1..];
    }
  }

  /** Splitting `p + [sep] + t`, or `p` alone when `t` is empty, where `p` holds no separator. */
  lemma {:induction false} SplitPiece(p: string, t: string, sep: char)
    requires sep !in p
    ensures t == [] ==> Split(p, sep) == [p]
    ensures Split(p + [sep] + t, sep) == [p] + Split(t, sep)
  {
    if p == [] {
      assert [sep] + t == p + [sep] + t;
      assert ([sep] + t)[1..] == t;
    } else {
      SplitPiece(p[1..], t, sep);
      assert p[0] != sep;
      assert (p + [sep] + t)[0] == p[0];
      assert (p + [sep] + t)[1..] == p[1..] + [sep] + t;
      assert [p[0]] + p[1..] == p;
      if t == [] {
        assert Split(p, sep) == [[p[0]] + Split(p[1..], sep)[0]] + Split(p[1..], sep)[1..];
      }
    }
  }

  /** The decimal digit for a value below ten. */
  function DigitChar(d: nat): (c: char)
    requires d < 10
    ensures '0' <= c <= '9' && c as int - '0' as int == d
  {
    ('0' as int + d) as char
  }

  /** Number::toString for a non-negative integer: decimal, no leading zeros. */
  function NatText(n: nat): (r: string)
    ensures |r| >= 1 && (r[0] == '0' ==> n == 0)
    ensures r[0] == '0' ==> r == "0"
    ensures forall i :: 0 <= i < |r| ==> '0' <= r[i] <= '9'
  {
    if n < 10 then [DigitChar(n)] else NatText(n / 10) + [DigitChar(n % 10)]
  }

  /** Number::toString for an integer: a minus sign before the magnitude when negative. */
  function IntText(i: int): string {
    if i < 0 then "-" + NatText(-i) else NatText(i)
  }

  /** The value of a string of decimal digits. */
  function DecimalValue(s: string): nat
    requires forall i :: 0 <= i < |s| ==> '0' <= s[i] <= '9'
  {
    if s == [] then 0 else 10 * DecimalValue(s[..|s| - 1]) + (s[|s| - 1] as int - '0' as int)
  }

  /** Reading the decimal text of a number gives the number back. */
  lemma {:induction false} NatTextRoundTrip(n: nat)
    ensures DecimalValue(NatText(n)) == n
  {
    if n >= 10 {
      NatTextRoundTrip(n / 10);
      var r := NatText(n);
      assert r[..|r| - 1] == NatText(n / 10);
    }
  }
}
