/** Colour-token resolution and hex decoding: the fixed palette, the hex validator,
    the token resolver and the hex-to-RGB decoder of the theming routine. */
module Color {
  import opened Text

  datatype Option<T> = None | Some(value: T)

  /** One palette entry: a colour name and its hex value. */
  datatype Swatch = Swatch(name: string, hex: string)

  /** The palette, in its declaration order (the order in which names are searched). */
  const Palette: seq<Swatch> := [
    Swatch("Black", "#000000"), Swatch("White", "#ffffff"), Swatch("Gray", "#808080"),
    Swatch("Silver", "#c0c0c0"), Swatch("Red", "#ef4444"), Swatch("Green", "#22c55e"),
    Swatch("Blue", "#3b82f6"), Swatch("Yellow", "#f59e0b"), Swatch("Orange", "#f97316"),
    Swatch("Purple", "#7c3aed"), Swatch("Pink", "#ec4899"), Swatch("Teal", "#14b8a6"),
    Swatch("Cyan", "#06b6d4"), Swatch("Lime", "#84cc16"), Swatch("Amber", "#f59e0b"),
    Swatch("Indigo", "#6366f1"), Swatch("Violet", "#8b5cf6"), Swatch("Gold", "#fbbf24")
  ]

  /** A character of the class [0-9a-f] matched case-insensitively. */
  predicate IsHexDigit(c: char) {
    '0' <= c <= '9' || 'a' <= c <= 'f' || 'A' <= c <= 'F'
  }

  /** The regular expression ^#([0-9a-f]{3}|[0-9a-f]{6})$ with the i flag. */
  predicate IsHex(v: string) {
    (|v| == 4 || |v| == 7) && v[0] == '#' && forall i :: 1 <= i < |v| ==> IsHexDigit(v[i])
  }

  /** The index of the first entry of `entries`, from position `from` on, whose lower-cased
      name equals `key` (Array.prototype.find over the palette's keys). */
  function FindName(entries: seq<Swatch>, key: string, from: nat): (r: Option<nat>)
    requires from <= |entries|
    ensures r.Some? ==> from <= r.value < |entries|
    decreases |entries| - from
  {
    if from == |entries| then None
    else if ToLower(entries[from].name) == key then Some(from)
    else FindName(entries, key, from + 1)
  }

  /** FindName finds the first match: the entry it returns matches, no earlier entry does, and
      when it returns nothing no entry matches. */
  lemma {:induction false} FindNameFirst(entries: seq<Swatch>, key: string, from: nat)
    requires from <= |entries|
    ensures var r := FindName(entries, key, from);
      (r.Some? ==> ToLower(entries[r.value].name) == key
                   && forall j :: from <= j < r.value ==> ToLower(entries[j].name) != key)
      && (r.None? ==> forall j :: from <= j < |entries| ==> ToLower(entries[j].name) != key)
    decreases |entries| - from
  {
    if from < |entries| && ToLower(entries[from].name) != key {
      FindNameFirst(entries, key, from + 1);
    }
  }

  /** The palette entry whose name equals `k` ignoring case, if there is one. */
  function Lookup(k: string): Option<nat> {
    FindName(Palette, ToLower(k), 0)
  }

  /** toHex: an absent or empty token gives the fallback; otherwise the trimmed token is kept
      when it is a hex literal, replaced by its palette value when it names a palette colour,
      and replaced by the fallback otherwise. */
  function ToHex(v: Option<string>, fb: string): string {
    if v.None? || v.value == "" then fb
    else
      var k := Trim(v.value);
      if IsHex(k) then k
      else match Lookup(k)
        case Some(i) => Palette[i].hex
        case None => fb
  }

  /** Every palette value is a hex literal. */
  lemma PaletteIsHex()
    ensures forall i :: 0 <= i < |Palette| ==> IsHex(Palette[i].hex)
  {
  }

  /** Palette names are distinct ignoring case, so a case-insensitive lookup is unambiguous. */
  lemma PaletteNamesDistinct()
    ensures forall i, j :: 0 <= i < j < |Palette| ==> ToLower(Palette[i].name) != ToLower(Palette[j].name)
  {
    forall i, j | 0 <= i < j < |Palette|
      ensures ToLower(Palette[i].name) != ToLower(Palette[j].name)
    {
      KeyDiffers(Palette[i].name, Palette[j].name);
    }
  }

  /** Two names that differ in length or in one of their first two letters ignoring case
      differ ignoring case. */
  lemma KeyDiffers(a: string, b: string)
    requires |a| >= 2 && |b| >= 2
    requires |a| != |b| || LowerChar(a[0]) != LowerChar(b[0]) || LowerChar(a[1]) != LowerChar(b[1])
    ensures ToLower(a) != ToLower(b)
  {
    if |a| == |b| && LowerChar(a[0]) != LowerChar(b[0]) {
      assert ToLower(a)[0] != ToLower(b)[0];
    } else if |a| == |b| {
      assert ToLower(a)[1] != ToLower(b)[1];
    }
  }

  /** A name matching palette entry `i` ignoring case resolves to entry `i`, whatever its casing. */
  lemma LookupFindsEntry(k: string, i: nat)
    requires i < |Palette| && ToLower(k) == ToLower(Palette[i].name)
    ensures Lookup(k) == Some(i)
  {
    PaletteNamesDistinct();
    FindNameFirst(Palette, ToLower(k), 0);
  }

  /** An absent or empty token resolves to the fallback. */
  lemma ToHexMissing(v: Option<string>, fb: string)
    requires v.None? || v.value == ""
    ensures ToHex(v, fb) == fb
  {
  }

  /** A token whose trim is a hex literal resolves to that trimmed literal, unchanged. */
  lemma ToHexLiteral(t: string, fb: string)
    requires t != "" && IsHex(Trim(t))
    ensures ToHex(Some(t), fb) == Trim(t)
  {
  }

  /** A token whose trim names palette entry `i` ignoring case resolves to that entry's value. */
  lemma ToHexNamed(t: string, fb: string, i: nat)
    requires i < |Palette| && ToLower(Trim(t)) == ToLower(Palette[i].name)
    ensures ToHex(Some(t), fb) == Palette[i].hex
  {
    LookupFindsEntry(Trim(t), i);
    PaletteNamesAreWords();
    assert Trim(t) != "";
    assert t != "";
    assert !IsHex(Trim(t)) by {
      PaletteNameNotHex(Trim(t), i);
    }
  }

  /** No palette name, in any casing, is a hex literal: names do not start with '#'. */
  lemma PaletteNameNotHex(k: string, i: nat)
    requires i < |Palette| && ToLower(k) == ToLower(Palette[i].name)
    ensures !IsHex(k)
  {
    PaletteNamesAreWords();
    assert ToLower(k)[0] == LowerChar(Palette[i].name[0]);
  }

  /** Every palette name has at least three characters and starts with a capital letter. */
  lemma PaletteNamesAreWords()
    ensures forall i :: 0 <= i < |Palette| ==> |Palette[i].name| >= 3 && 'A' <= Palette[i].name[0] <= 'Z'
  {
  }

  /** A token that is neither a hex literal nor a palette name resolves to the fallback. */
  lemma ToHexUnknown(t: string, fb: string)
    requires !IsHex(Trim(t))
    requires forall i :: 0 <= i < |Palette| ==> ToLower(Trim(t)) != ToLower(Palette[i].name)
    ensures ToHex(Some(t), fb) == fb
  {
    FindNameFirst(Palette, ToLower(Trim(t)), 0);
  }

  /** With a hex fallback, toHex always yields a hex literal. */
  lemma ToHexIsHex(v: Option<string>, fb: string)
    requires IsHex(fb)
    ensures IsHex(ToHex(v, fb))
  {
    PaletteIsHex();
  }

  /** The value of a hexadecimal digit. */
  function DigitValue(c: char): (d: nat)
    requires IsHexDigit(c)
    ensures d < 16
  {
    if '0' <= c <= '9' then c as int - '0' as int
    else if 'a' <= c <= 'f' then c as int - 'a' as int + 10
    else c as int - 'A' as int + 10
  }

  /** A Number produced by parseInt: NaN, or an integer. */
  datatype JsNumber = NaN | Finite(value: int)

  /** The longest prefix of `s` made of hexadecimal digits. */
  function HexDigitPrefix(s: string): (r: string)
    ensures |r| <= |s| && r == s[..|r|]
    ensures forall i :: 0 <= i < |r| ==> IsHexDigit(r[i])
    ensures |r| < |s| ==> !IsHexDigit(s[|r|])
  {
    if s != [] && IsHexDigit(s[0]) then [s[0]] + HexDigitPrefix(s[1..]) else []
  }

  /** The value of a string of hexadecimal digits, most significant first. */
  function HexValue(s: string): nat
    requires forall i :: 0 <= i < |s| ==> IsHexDigit(s[i])
  {
    if s == [] then 0 else 16 * HexValue(s[..|s| - 1]) + DigitValue(s[|s| - 1])
  }

  /** parseInt(s, 16): skip leading white space, take an optional sign, drop a 0x or 0X prefix,
      then read the longest run of hexadecimal digits; no digits gives NaN. */
  function ParseIntHex(s: string): JsNumber {
    var t := TrimStart(s);
    var negative := |t| > 0 && t[0] == '-';
    var u := if |t| > 0 && (t[0] == '-' || t[0] == '+') then t[1..] else t;
    var w := if |u| >= 2 && u[0] == '0' && (u[1] == 'x' || u[1] == 'X') then u[2..] else u;
    var digits := HexDigitPrefix(w);
    if digits == [] then NaN
    else
      var magnitude: int := HexValue(digits);
      Finite(if negative then -magnitude else magnitude)
  }

  /** String.prototype.replace with a one-character pattern: the first occurrence is removed. */
  function RemoveFirst(s: string, c: char): (r: string)
    ensures c in s ==> |r| == |s| - 1
    ensures c !in s ==> r == s
    ensures s != [] && s[0] == c ==> r == s[1..]
  {
    if s == [] then s else if s[0] == c then s[1..] else [s[0]] + RemoveFirst(s[1..], c)
  }

  /** Removing the first `c` from `p + [c] + q`, where `p` holds no `c`, leaves `p + q`. */
  lemma {:induction false} RemoveFirstSplit(p: string, q: string, c: char)
    requires c !in p
    ensures RemoveFirst(p + [c] + q, c) == p + q
  {
    if p == [] {
      assert p + [c] + q == [c] + q;
    } else {
      assert (p + [c] + q)[0] == p[0];
      assert (p + [c] + q)[1..] == p[1..] + [c] + q;
      RemoveFirstSplit(p[1..], q, c);
      assert [p[0]] + (p[1..] + q) == p + q;
    }
  }

  /** A three-character string with every character doubled; any other string unchanged. */
  function ExpandShorthand(h: string): string {
    if |h| == 3 then [h[0], h[0], h[1], h[1], h[2], h[2]] else h
  }

  /** String.prototype.slice(i, j) for 0 <= i <= j: the indices are clamped to the length. */
  function Slice(s: string, i: nat, j: nat): string
    requires i <= j
  {
    s[if i < |s| then i else |s|..if j < |s| then j else |s|]
  }

  /** The three channels hexToRgbTuple returns. */
  datatype Rgb = Rgb(r: JsNumber, g: JsNumber, b: JsNumber)

  /** hexToRgbTuple: drop the first '#', expand three-character shorthand, and read the
      characters at 0..2, 2..4 and 4..6 as base-16 numbers. */
  function HexToRgbTuple(hex: string): Rgb {
    var h := ExpandShorthand(RemoveFirst(hex, '#'));
    Rgb(ParseIntHex(Slice(h, 0, 2)), ParseIntHex(Slice(h, 2, 4)), ParseIntHex(Slice(h, 4, 6)))
  }

  /** The value of the two-digit hexadecimal byte `a b`. */
  function ByteValue(a: char, b: char): (n: nat)
    requires IsHexDigit(a) && IsHexDigit(b)
    ensures n < 256
  {
    16 * DigitValue(a) + DigitValue(b)
  }

  /** parseInt reads a pair of hexadecimal digits as the byte they spell. */
  lemma ParsePair(a: char, b: char)
    requires IsHexDigit(a) && IsHexDigit(b)
    ensures ParseIntHex([a, b]) == Finite(ByteValue(a, b))
  {
    assert TrimStart([a, b]) == [a, b];
    assert [a, b][1..] == [b];
    assert HexDigitPrefix([b]) == [b];
    assert HexDigitPrefix([a, b]) == [a, b];
    assert [a, b][..1] == [a];
    assert [a][..0] == [];
    assert HexValue([a]) == DigitValue(a);
    assert HexValue([a, b]) == 16 * DigitValue(a) + DigitValue(b);
  }

  /** The six hexadecimal digits a hex literal stands for, shorthand expanded. */
  function Digits6(h: string): (d: string)
    requires IsHex(h)
    ensures |d| == 6 && forall i :: 0 <= i < 6 ==> IsHexDigit(d[i])
  {
    ExpandShorthand(h[1..])
  }

  /** The triple of bytes spelled by six hexadecimal digits. */
  function Bytes(d: string): Rgb
    requires |d| == 6 && forall i :: 0 <= i < 6 ==> IsHexDigit(d[i])
  {
    Rgb(Finite(ByteValue(d[0], d[1])), Finite(ByteValue(d[2], d[3])), Finite(ByteValue(d[4], d[5])))
  }

  /** A hex literal decodes to the three bytes its (expanded) digits spell. */
  lemma DecodeHex(h: string)
    requires IsHex(h)
    ensures HexToRgbTuple(h) == Bytes(Digits6(h))
  {
    assert RemoveFirst(h, '#') == h[1..];
    var d := Digits6(h);
    assert Slice(d, 0, 2) == [d[0], d[1]];
    assert Slice(d, 2, 4) == [d[2], d[3]];
    assert Slice(d, 4, 6) == [d[4], d[5]];
    ParsePair(d[0], d[1]);
    ParsePair(d[2], d[3]);
    ParsePair(d[4], d[5]);
  }

  /** A channel value that is an integer in 0..255. */
  predicate IsByte(n: JsNumber) {
    n.Finite? && 0 <= n.value < 256
  }

  /** Every channel of a decoded hex literal is an integer in 0..255. */
  lemma DecodeHexInRange(h: string)
    requires IsHex(h)
    ensures var t := HexToRgbTuple(h); IsByte(t.r) && IsByte(t.g) && IsByte(t.b)
  {
    DecodeHex(h);
  }

  /** Shorthand #xyz decodes to the same triple as #xxyyzz. */
  lemma ShorthandSameAsLong(x: char, y: char, z: char)
    requires IsHexDigit(x) && IsHexDigit(y) && IsHexDigit(z)
    ensures HexToRgbTuple(['#', x, y, z]) == HexToRgbTuple(['#', x, x, y, y, z, z])
  {
    var short, long := ['#', x, y, z], ['#', x, x, y, y, z, z];
    assert short[1..] == [x, y, z];
    assert long[1..] == [x, x, y, y, z, z];
    assert IsHex(short) && IsHex(long);
    var d := [x, x, y, y, z, z];
    assert Digits6(short) == d;
    assert Digits6(long) == d;
    DecodeHex(short);
    DecodeHex(long);
  }

  /** The shorthand #fff decodes to 255, 255, 255. */
  lemma DecodeWhite()
    ensures HexToRgbTuple("#fff") == Rgb(Finite(255), Finite(255), Finite(255))
  {
    assert "#fff"[1..] == "fff";
    DecodeHex("#fff");
    assert Digits6("#fff") == "ffffff";
  }

  /** #000000 decodes to 0, 0, 0. */
  lemma DecodeBlack()
    ensures HexToRgbTuple("#000000") == Rgb(Finite(0), Finite(0), Finite(0))
  {
    assert "#000000"[1..] == "000000";
    DecodeHex("#000000");
  }

  /** The lower-case hexadecimal digit for a value below sixteen. */
  function HexDigitChar(d: nat): (c: char)
    requires d < 16
    ensures IsHexDigit(c) && DigitValue(c) == d && LowerChar(c) == c
  {
    if d < 10 then ('0' as int + d) as char else ('a' as int + d - 10) as char
  }

  /** The six-digit lower-case hex literal of a triple of bytes: the inverse of the decoder. */
  function RgbToHex(r: nat, g: nat, b: nat): (h: string)
    requires r < 256 && g < 256 && b < 256
    ensures IsHex(h) && |h| == 7
  {
    ['#', HexDigitChar(r / 16), HexDigitChar(r % 16), HexDigitChar(g / 16), HexDigitChar(g % 16),
     HexDigitChar(b / 16), HexDigitChar(b % 16)]
  }

  /** Decoding the hex literal of a triple gives the triple back. */
  lemma DecodeEncode(r: nat, g: nat, b: nat)
    requires r < 256 && g < 256 && b < 256
    ensures HexToRgbTuple(RgbToHex(r, g, b)) == Rgb(Finite(r), Finite(g), Finite(b))
  {
    var h := RgbToHex(r, g, b);
    DecodeHex(h);
    assert Digits6(h) == h[1..];
    SplitByte(r);
    SplitByte(g);
    SplitByte(b);
  }

  /** A byte is the byte spelled by its two lower-case digits. */
  lemma SplitByte(n: nat)
    requires n < 256
    ensures ByteValue(HexDigitChar(n / 16), HexDigitChar(n % 16)) == n
  {
  }

  /** The two digits of the byte `a b` are recovered by division and remainder by sixteen. */
  lemma JoinByte(a: char, b: char)
    requires IsHexDigit(a) && IsHexDigit(b)
    ensures ByteValue(a, b) / 16 == DigitValue(a) && ByteValue(a, b) % 16 == DigitValue(b)
  {
  }

  /** Encoding the decoded triple of a hex literal gives its expanded digits, lower-cased. */
  lemma EncodeDecode(h: string)
    requires IsHex(h)
    ensures var t := HexToRgbTuple(h);
      IsByte(t.r) && IsByte(t.g) && IsByte(t.b)
      && RgbToHex(t.r.value, t.g.value, t.b.value) == "#" + ToLower(Digits6(h))
  {
    DecodeHex(h);
    EncodeBytes(Digits6(h));
  }

  /** The hex literal of the bytes spelled by six digits is those digits, lower-cased. */
  lemma EncodeBytes(d: string)
    requires |d| == 6 && forall i :: 0 <= i < 6 ==> IsHexDigit(d[i])
    ensures RgbToHex(ByteValue(d[0], d[1]), ByteValue(d[2], d[3]), ByteValue(d[4], d[5])) == "#" + ToLower(d)
  {
    JoinByte(d[0], d[1]);
    JoinByte(d[2], d[3]);
    JoinByte(d[4], d[5]);
    DigitRoundTrip(d[0]);
    DigitRoundTrip(d[1]);
    DigitRoundTrip(d[2]);
    DigitRoundTrip(d[3]);
    DigitRoundTrip(d[4]);
    DigitRoundTrip(d[5]);
    assert "#" + ToLower(d) == ['#', LowerChar(d[0]), LowerChar(d[1]), LowerChar(d[2]),
      LowerChar(d[3]), LowerChar(d[4]), LowerChar(d[5])];
  }

  /** A digit's value written back as a lower-case digit is the digit lower-cased. */
  lemma DigitRoundTrip(c: char)
    requires IsHexDigit(c)
    ensures HexDigitChar(DigitValue(c)) == LowerChar(c)
  {
  }
}
