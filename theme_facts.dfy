/** What applyTheme guarantees about the document it writes to, part by part: the root style,
    the root's attributes, the body's classes and the body's style. */
module ThemeFacts {
  import opened Text
  import opened Color
  import opened Params
  import opened Theme

  // ---------------------------------------------------------------------------------------
  // Colour resolution
  // ---------------------------------------------------------------------------------------

  /** Every resolved colour is a hex literal, so it is always decoded from a valid literal. */
  lemma ResolvedAreHex(colors: seq<string>)
    ensures var c := ResolveColours(colors); IsHex(c.primary) && IsHex(c.secondary) && IsHex(c.accent)
  {
    assert IsHex(DefaultPrimary) && IsHex(DefaultSecondary) && IsHex(DefaultAccent);
    ToHexIsHex(At(colors, 0), DefaultPrimary);
    ToHexIsHex(At(colors, 1), DefaultSecondary);
    ToHexIsHex(At(colors, 2), DefaultAccent);
  }

  /** Tokens beyond the third are ignored. */
  lemma ExtraTokensIgnored(colors: seq<string>)
    requires |colors| >= 3
    ensures ResolveColours(colors) == ResolveColours(colors[..3])
  {
  }

  /** A missing or empty token resolves to its own position's fallback. */
  lemma MissingTokensFallBack(colors: seq<string>)
    ensures |colors| <= 0 || colors[0] == "" ==> ResolveColours(colors).primary == DefaultPrimary
    ensures |colors| <= 1 || colors[1] == "" ==> ResolveColours(colors).secondary == DefaultSecondary
    ensures |colors| <= 2 || colors[2] == "" ==> ResolveColours(colors).accent == DefaultAccent
  {
  }

  /** A colour list without commas is one token, so the secondary and accent colours are their
      fallbacks rather than entries of the default list. */
  lemma {:induction false} SingleToken(raw: string)
    requires raw != "" && ',' !in raw
    ensures ColorTokens(Some(raw)) == [Trim(raw)]
    ensures ResolveColours(ColorTokens(Some(raw))).secondary == DefaultSecondary
    ensures ResolveColours(ColorTokens(Some(raw))).accent == DefaultAccent
  {
    SplitPiece(raw, [], ',');
  }

  /** Three palette names, already trimmed, resolve to their three palette values. */
  lemma ThreeNames(a: string, b: string, c: string, i: nat, j: nat, k: nat)
    requires i < |Palette| && j < |Palette| && k < |Palette|
    requires Trim(a) == a && Trim(b) == b && Trim(c) == c
    requires ToLower(a) == ToLower(Palette[i].name) && ToLower(b) == ToLower(Palette[j].name)
    requires ToLower(c) == ToLower(Palette[k].name)
    ensures ResolveColours([a, b, c]) == Resolved(Palette[i].hex, Palette[j].hex, Palette[k].hex)
  {
    ToHexNamed(a, DefaultPrimary, i);
    ToHexNamed(b, DefaultSecondary, j);
    ToHexNamed(c, DefaultAccent, k);
  }

  /** A name spelled with the Kelvin sign for its k still names its palette entry, as
      toLowerCase turns the sign into k: PIN and the sign give #ec4899. */
  lemma KelvinSignName(fb: string)
    ensures ToHex(Some("PIN" + [KelvinSign]), fb) == "#ec4899"
  {
    var t := "PIN" + [KelvinSign];
    TrimUnchanged(t);
    assert ToLower(t) == "pink" == ToLower(Palette[10].name);
    ToHexNamed(t, fb, 10);
  }

  /** The default list's tokens Purple, Teal, Amber (DefaultTokens) resolve to exactly the three
      fallbacks. */
  lemma DefaultListResolvesToFallbacks()
    ensures ResolveColours(["Purple", "Teal", "Amber"]) == Resolved(DefaultPrimary, DefaultSecondary, DefaultAccent)
  {
    ThreeNames("Purple", "Teal", "Amber", 9, 11, 14);
  }

  // ---------------------------------------------------------------------------------------
  // The "r, g, b" text
  // ---------------------------------------------------------------------------------------

  /** The decoded triple of a hex literal: three bytes, written in decimal as "r, g, b". */
  lemma ByteTriple(hex: string)
    requires IsHex(hex)
    ensures var t := HexToRgbTuple(hex);
      IsByte(t.r) && IsByte(t.g) && IsByte(t.b)
      && RgbText(t) == NatText(t.r.value) + ", " + NatText(t.g.value) + ", " + NatText(t.b.value)
  {
    DecodeHex(hex);
  }

  /** The "r, g, b" text of three numbers gives them back: splitting it at commas yields three
      fields whose trimmed text is decimal and reads as r, g and b. */
  lemma {:induction false} RgbTextFields(r: nat, g: nat, b: nat)
    ensures var f := Split(NatText(r) + ", " + NatText(g) + ", " + NatText(b), ',');
      |f| == 3 && Trim(f[0]) == NatText(r) && Trim(f[1]) == NatText(g) && Trim(f[2]) == NatText(b)
      && DecimalValue(NatText(r)) == r && DecimalValue(NatText(g)) == g && DecimalValue(NatText(b)) == b
  {
    var x, y, z := NatText(r), NatText(g), NatText(b);
    var p := [x, " " + y, " " + z];
    assert ',' !in x && ',' !in y && ',' !in z;
    assert ',' !in " " + y && ',' !in " " + z;
    assert p[1..] == [" " + y, " " + z] && p[1..][1..] == [" " + z];
    assert Join([" " + z], ',') == " " + z;
    assert Join([" " + y, " " + z], ',') == " " + y + [','] + " " + z;
    assert Join(p, ',') == x + [','] + (" " + y + [','] + " " + z);
    assert x + [','] + (" " + y + [','] + " " + z) == x + ", " + y + ", " + z;
    SplitJoin(p, ',');
    TrimUnchanged(x);
    SpacedDigits(y);
    SpacedDigits(z);
    NatTextRoundTrip(r);
    NatTextRoundTrip(g);
    NatTextRoundTrip(b);
  }

  /** A space followed by decimal text trims to the decimal text. */
  lemma SpacedDigits(y: string)
    requires |y| >= 1 && forall k :: 0 <= k < |y| ==> '0' <= y[k] <= '9'
    ensures Trim(" " + y) == y
  {
    assert (" " + y)[1..] == y;
    assert TrimStart(" " + y) == TrimStart(y);
    TrimUnchanged(y);
  }

  /** An "r, g, b" text never trims to the empty string: it holds a comma. */
  lemma RgbTextNotBlank(t: Rgb)
    ensures Trim(RgbText(t)) != ""
  {
    var s := RgbText(t);
    var k := |NumberText(t.r)|;
    assert s[k] == ',';
    TrimNonEmpty(s, k);
  }

  /** toRGB of a value that does not start with '#' reads white. */
  lemma ToRgbTextOfNonHash(v: string)
    requires v == [] || v[0] != '#'
    ensures ToRgbText(v) == RgbText(HexToRgbTuple(White))
  {
  }

  /** White decodes to 255, 255, 255. */
  lemma WhiteIsFull()
    ensures HexToRgbTuple(White) == Rgb(Finite(255), Finite(255), Finite(255))
  {
    DecodeHex(White);
    assert Digits6(White) == "ffffff";
  }

  // ---------------------------------------------------------------------------------------
  // Root style
  // ---------------------------------------------------------------------------------------

  /** The colour writes touch only the six colour variables. */
  lemma ColourWritesKeepOthers(rs: map<string, string>, v: ColourVars, k: string)
    requires k !in {PrimaryColor, SecondaryColor, AccentColor, PrimaryRgb, SecondaryRgb, AccentRgb}
    ensures (k in WriteColourVars(rs, v) <==> k in rs)
    ensures k in rs ==> WriteColourVars(rs, v)[k] == rs[k]
  {
  }

  /** The fallback writes touch no property but --surface-rgb and --border-rgb. */
  lemma FallbacksKeepOthers(rs: map<string, string>, sheet: map<string, string>, s: string, b: string, k: string)
    requires k != SurfaceRgb && k != BorderRgb
    ensures (k in WriteFallbackRgb(rs, sheet, s, b) <==> k in rs)
    ensures k in rs ==> WriteFallbackRgb(rs, sheet, s, b)[k] == rs[k]
  {
  }

  /** The colour writes leave what the fallback writes read as it was. */
  lemma ColourWritesKeepFallbackInputs(rs: map<string, string>, sheet: map<string, string>, v: ColourVars)
    ensures var m := WriteColourVars(rs, v);
      ComputedValue(m, sheet, SurfaceRgb) == ComputedValue(rs, sheet, SurfaceRgb)
      && ComputedValue(m, sheet, BorderRgb) == ComputedValue(rs, sheet, BorderRgb)
      && (SurfaceRgb in m <==> SurfaceRgb in rs) && (SurfaceRgb in rs ==> m[SurfaceRgb] == rs[SurfaceRgb])
      && (BorderRgb in m <==> BorderRgb in rs) && (BorderRgb in rs ==> m[BorderRgb] == rs[BorderRgb])
  {
    ColourWritesKeepOthers(rs, v, SurfaceRgb);
    ColourWritesKeepOthers(rs, v, BorderRgb);
  }

  /** applyTheme writes the six colour variables with the given values. */
  lemma ColourVariablesWritten(rs: map<string, string>, sheet: map<string, string>, v: ColourVars, s: string, b: string)
    ensures var after := WriteFallbackRgb(WriteColourVars(rs, v), sheet, s, b);
      PrimaryColor in after && SecondaryColor in after && AccentColor in after
      && PrimaryRgb in after && SecondaryRgb in after && AccentRgb in after
      && after[PrimaryColor] == v.primary && after[SecondaryColor] == v.secondary
      && after[AccentColor] == v.accent && after[PrimaryRgb] == v.primaryRgb
      && after[SecondaryRgb] == v.secondaryRgb && after[AccentRgb] == v.accentRgb
  {
    var m := WriteColourVars(rs, v);
    FallbacksKeepOthers(m, sheet, s, b, PrimaryColor);
    FallbacksKeepOthers(m, sheet, s, b, SecondaryColor);
    FallbacksKeepOthers(m, sheet, s, b, AccentColor);
    FallbacksKeepOthers(m, sheet, s, b, PrimaryRgb);
    FallbacksKeepOthers(m, sheet, s, b, SecondaryRgb);
    FallbacksKeepOthers(m, sheet, s, b, AccentRgb);
  }

  /** Each "-rgb" value holds, in decimal as "r, g, b", the three bytes of its hex value. */
  lemma RgbVariablesAreBytes(colors: seq<string>)
    ensures var v := ColourVarsOf(ResolveColours(colors));
      IsHex(v.primary) && var t := HexToRgbTuple(v.primary);
      IsByte(t.r) && IsByte(t.g) && IsByte(t.b)
      && v.primaryRgb == NatText(t.r.value) + ", " + NatText(t.g.value) + ", " + NatText(t.b.value)
    ensures var v := ColourVarsOf(ResolveColours(colors));
      IsHex(v.secondary) && var t := HexToRgbTuple(v.secondary);
      IsByte(t.r) && IsByte(t.g) && IsByte(t.b)
      && v.secondaryRgb == NatText(t.r.value) + ", " + NatText(t.g.value) + ", " + NatText(t.b.value)
    ensures var v := ColourVarsOf(ResolveColours(colors));
      IsHex(v.accent) && var t := HexToRgbTuple(v.accent);
      IsByte(t.r) && IsByte(t.g) && IsByte(t.b)
      && v.accentRgb == NatText(t.r.value) + ", " + NatText(t.g.value) + ", " + NatText(t.b.value)
  {
    var c := ResolveColours(colors);
    ResolvedAreHex(colors);
    ByteTriple(c.primary);
    ByteTriple(c.secondary);
    ByteTriple(c.accent);
  }

  /** --surface-rgb is written, with the given text, only when its computed value is blank;
      a value already there, inline or from the stylesheets, is kept. */
  lemma SurfaceRgbRule(rs: map<string, string>, sheet: map<string, string>, v: ColourVars, s: string, b: string)
    ensures var after := WriteFallbackRgb(WriteColourVars(rs, v), sheet, s, b);
      if Trim(ComputedValue(rs, sheet, SurfaceRgb)) != "" then
        (SurfaceRgb in after <==> SurfaceRgb in rs) && (SurfaceRgb in rs ==> after[SurfaceRgb] == rs[SurfaceRgb])
      else
        SurfaceRgb in after && after[SurfaceRgb] == s
  {
    ColourWritesKeepFallbackInputs(rs, sheet, v);
  }

  /** --border-rgb is written, with the given text, only when its computed value is blank;
      a value already there, inline or from the stylesheets, is kept. */
  lemma BorderRgbRule(rs: map<string, string>, sheet: map<string, string>, v: ColourVars, s: string, b: string)
    ensures var after := WriteFallbackRgb(WriteColourVars(rs, v), sheet, s, b);
      if Trim(ComputedValue(rs, sheet, BorderRgb)) != "" then
        (BorderRgb in after <==> BorderRgb in rs) && (BorderRgb in rs ==> after[BorderRgb] == rs[BorderRgb])
      else
        BorderRgb in after && after[BorderRgb] == b
  {
    ColourWritesKeepFallbackInputs(rs, sheet, v);
  }

  /** No root style property outside the theme's own is added, removed or changed. */
  lemma OtherRootPropertiesUnchanged(rs: map<string, string>, sheet: map<string, string>, v: ColourVars,
                                     s: string, b: string, k: string)
    requires k !in ThemeProperties
    ensures var after := WriteFallbackRgb(WriteColourVars(rs, v), sheet, s, b);
      (k in after <==> k in rs) && (k in rs ==> after[k] == rs[k])
  {
    ColourWritesKeepOthers(rs, v, k);
    FallbacksKeepOthers(WriteColourVars(rs, v), sheet, s, b, k);
  }

  /** When the fallback texts are not blank, --surface-rgb and --border-rgb have non-blank
      computed values after the fallback writes. */
  lemma FallbacksNotBlank(rs: map<string, string>, sheet: map<string, string>, s: string, b: string)
    requires Trim(s) != "" && Trim(b) != ""
    ensures Trim(ComputedValue(WriteFallbackRgb(rs, sheet, s, b), sheet, SurfaceRgb)) != ""
    ensures Trim(ComputedValue(WriteFallbackRgb(rs, sheet, s, b), sheet, BorderRgb)) != ""
  {
  }

  /** The six colour values are never blank. */
  lemma ColourVarsNotBlank(colors: seq<string>)
    ensures var v := ColourVarsOf(ResolveColours(colors));
      Trim(v.primary) != "" && Trim(v.secondary) != "" && Trim(v.accent) != ""
      && Trim(v.primaryRgb) != "" && Trim(v.secondaryRgb) != "" && Trim(v.accentRgb) != ""
  {
    var c := ResolveColours(colors);
    ResolvedAreHex(colors);
    TrimNonEmpty(c.primary, 0);
    TrimNonEmpty(c.secondary, 0);
    TrimNonEmpty(c.accent, 0);
    RgbTextNotBlank(HexToRgbTuple(c.primary));
    RgbTextNotBlank(HexToRgbTuple(c.secondary));
    RgbTextNotBlank(HexToRgbTuple(c.accent));
  }

  /** toRGB never yields a blank text. */
  lemma ToRgbTextNotBlank(hex: string)
    ensures Trim(ToRgbText(hex)) != ""
  {
    RgbTextNotBlank(HexToRgbTuple(if |hex| > 0 && hex[0] == '#' then hex else White));
  }

  /** With non-blank values, after the root writes every theme property has a non-blank
      computed value. */
  lemma ThemePropertiesWritten(rs: map<string, string>, sheet: map<string, string>, v: ColourVars, s: string, b: string)
    requires Trim(v.primary) != "" && Trim(v.secondary) != "" && Trim(v.accent) != ""
    requires Trim(v.primaryRgb) != "" && Trim(v.secondaryRgb) != "" && Trim(v.accentRgb) != ""
    requires Trim(s) != "" && Trim(b) != ""
    ensures forall k :: k in ThemeProperties ==>
      Trim(ComputedValue(WriteFallbackRgb(WriteColourVars(rs, v), sheet, s, b), sheet, k)) != ""
  {
    ColourVariablesWritten(rs, sheet, v, s, b);
    FallbacksNotBlank(WriteColourVars(rs, v), sheet, s, b);
  }

  /** After applyTheme every theme property has a non-blank computed value. */
  lemma ThemePropertiesResolved(rs: map<string, string>, sheet: map<string, string>, cfg: Config)
    ensures forall k :: k in ThemeProperties ==> Trim(ComputedValue(RootStyleAfter(rs, sheet, cfg), sheet, k)) != ""
  {
    ColourVarsNotBlank(cfg.colors);
    ToRgbTextNotBlank(SurfaceValue(rs, sheet));
    ToRgbTextNotBlank(BorderValue(rs, sheet));
    ThemePropertiesWritten(rs, sheet, ColourVarsOf(ResolveColours(cfg.colors)), ToRgbText(SurfaceValue(rs, sheet)),
                           ToRgbText(BorderValue(rs, sheet)));
  }

  // ---------------------------------------------------------------------------------------
  // Style marker
  // ---------------------------------------------------------------------------------------

  /** data-walnut-style is always glass, sleek or solid: a recognised style as given, anything
      else glass; no other root attribute changes. */
  lemma StyleMarkerRule(attrs: map<string, string>, style: string)
    ensures var after := attrs[StyleAttribute := PresetOf(style)];
      StyleAttribute in after
      && after[StyleAttribute] in StylePresets
      && (style in StylePresets ==> after[StyleAttribute] == style)
      && (style !in StylePresets ==> after[StyleAttribute] == "glass")
      && forall k :: k != StyleAttribute ==>
          (k in after <==> k in attrs) && (k in after ==> after[k] == attrs[k])
  {
  }

  /** Through parseParams the style matches case-insensitively: style=SLEEK selects sleek, style=SLEE
      followed by the Kelvin sign (which lowers to k) selects sleek too, and an unknown style
      selects glass; the other query values do not matter. */
  lemma QueryStyleExamples(q: Query)
    ensures q.style == Some("SLEEK") ==> PresetOf(ParseParams(q).style) == "sleek"
    ensures q.style == Some("SLEE" + [KelvinSign]) ==> PresetOf(ParseParams(q).style) == "sleek"
    ensures q.style == Some("UNKNOWN") ==> PresetOf(ParseParams(q).style) == "glass"
  {
    assert ToLower("SLEEK") == "sleek";
    assert ToLower("SLEE" + [KelvinSign]) == "sleek";
    assert ToLower("UNKNOWN") == "unknown";
  }

  // ---------------------------------------------------------------------------------------
  // Body classes and image
  // ---------------------------------------------------------------------------------------

  /** The background class is bg- and a recognised mode, bg-solid for anything else. */
  lemma BackgroundClassRule(background: string)
    ensures BackgroundClassOf(background) in BackgroundClasses
    ensures background in Backgrounds ==> BackgroundClassOf(background) == "bg-" + background
    ensures background !in Backgrounds ==> BackgroundClassOf(background) == "bg-solid"
  {
    if background in Backgrounds {
      assert background == "solid" || background == "gradient" || background == "animated" || background == "image";
      assert "bg-" + "solid" == "bg-solid" && "bg-" + "gradient" == "bg-gradient";
      assert "bg-" + "animated" == "bg-animated" && "bg-" + "image" == "bg-image";
    } else {
      assert "bg-" + "solid" == "bg-solid";
    }
  }

  /** classList.remove distributes over concatenation. */
  lemma {:induction false} WithoutAppend(a: seq<string>, b: seq<string>, drop: set<string>)
    ensures Without(a + b, drop) == Without(a, drop) + Without(b, drop)
  {
    if a != [] {
      assert (a + b)[0] == a[0];
      assert (a + b)[1..] == a[1..] + b;
      WithoutAppend(a[1..], b, drop);
      if a[0] !in drop {
        assert [a[0]] + (Without(a[1..], drop) + Without(b, drop))
            == [a[0]] + Without(a[1..], drop) + Without(b, drop);
      }
    } else {
      assert a + b == b;
    }
  }

  /** Removing tokens that are absent leaves the list as it is. */
  lemma {:induction false} WithoutAbsent(a: seq<string>, drop: set<string>)
    requires forall x :: x in a ==> x !in drop
    ensures Without(a, drop) == a
  {
    if a != [] {
      WithoutAbsent(a[1..], drop);
      assert a == [a[0]] + a[1..];
    }
  }

  /** The body's classes after the background write: the other classes, in their order, then
      the chosen background class. */
  lemma ClassesAfterShape(classes: seq<string>, background: string)
    ensures BodyClassesAfter(classes, background)
         == Without(classes, BackgroundClasses) + [BackgroundClassOf(background)]
  {
    BackgroundClassRule(background);
  }

  /** After applyTheme the body carries exactly one background class, the chosen one, at the end;
      the other classes stay, in their order; and no class appears twice. */
  lemma BodyClassesRule(classes: seq<string>, background: string)
    requires NoDuplicates(classes)
    ensures var after, chosen := BodyClassesAfter(classes, background), BackgroundClassOf(background);
      NoDuplicates(after)
      && (forall c :: c in BackgroundClasses ==> (c in after <==> c == chosen))
      && |after| > 0 && after[|after| - 1] == chosen
      && Without(after, BackgroundClasses) == Without(classes, BackgroundClasses)
  {
    var w := Without(classes, BackgroundClasses);
    var chosen := BackgroundClassOf(background);
    ClassesAfterShape(classes, background);
    BackgroundClassRule(background);
    WithoutAppend(w, [chosen], BackgroundClasses);
    assert Without([chosen], BackgroundClasses) == [];
    WithoutAbsent(w, BackgroundClasses);
    assert w + [] == w;
    forall i, j | 0 <= i < j < |w + [chosen]| ensures (w + [chosen])[i] != (w + [chosen])[j] {
      if j == |w| {
        assert (w + [chosen])[i] in w;
      }
    }
  }

  /** Applying the background write twice is applying it once. */
  lemma BodyClassesIdempotent(classes: seq<string>, background: string)
    ensures BodyClassesAfter(BodyClassesAfter(classes, background), background)
         == BodyClassesAfter(classes, background)
  {
    var w := Without(classes, BackgroundClasses);
    var chosen := BackgroundClassOf(background);
    ClassesAfterShape(classes, background);
    ClassesAfterShape(w + [chosen], background);
    BackgroundClassRule(background);
    WithoutAppend(w, [chosen], BackgroundClasses);
    assert Without([chosen], BackgroundClasses) == [];
    WithoutAbsent(w, BackgroundClasses);
    assert w + [] == w;
  }

  /** --bg-image-url is set exactly when the background is image and an address is given, to
      url("...") around the escaped address, and removed otherwise; nothing else on the body's
      style changes. */
  lemma BackgroundImageRule(bs: map<string, string>, cfg: Config)
    ensures var after := BodyStyleAfter(bs, cfg.background, cfg.bgurl);
      (BgImageUrl in after <==> cfg.background == "image" && cfg.bgurl != "")
      && (BgImageUrl in after ==> after[BgImageUrl] == "url(\"" + EscapeQuotes(cfg.bgurl) + "\")")
      && forall k :: k != BgImageUrl ==>
          (k in after <==> k in bs) && (k in after ==> after[k] == bs[k])
  {
  }

  /** Reads back an escaped address: a backslash followed by a quote stands for the quote. */
  function UnescapeQuotes(e: string): string {
    if e == [] then []
    else if |e| >= 2 && e[0] == '\\' && e[1] == '"' then ['"'] + UnescapeQuotes(e[2..])
    else [e[0]] + UnescapeQuotes(e[1..])
  }

  /** The escaped text starts with a backslash where the address starts with a quote, and with
      the address's first character otherwise; so it never starts with a quote. */
  lemma EscapeStart(u: string)
    requires u != []
    ensures EscapeQuotes(u) != [] && EscapeQuotes(u)[0] == (if u[0] == '"' then '\\' else u[0])
  {
  }

  /** Escaping loses nothing: the address is recovered from its escaped form. */
  lemma {:induction false} EscapeRoundTrip(u: string)
    ensures UnescapeQuotes(EscapeQuotes(u)) == u
  {
    if u != [] {
      EscapeRoundTrip(u[1..]);
      var rest := EscapeQuotes(u[1..]);
      if u[1..] != [] {
        EscapeStart(u[1..]);
      }
      if u[0] == '"' {
        assert EscapeQuotes(u) == ['\\', '"'] + rest;
        assert (['\\', '"'] + rest)[2..] == rest;
      } else {
        assert EscapeQuotes(u) == [u[0]] + rest;
        assert ([u[0]] + rest)[1..] == rest;
      }
    }
  }

  /** Every quote in the escaped address has a backslash right before it. */
  lemma {:induction false} EscapedQuotesArePreceded(u: string)
    ensures forall i :: 0 <= i < |EscapeQuotes(u)| && EscapeQuotes(u)[i] == '"' ==>
      0 < i && EscapeQuotes(u)[i - 1] == '\\'
  {
    if u != [] {
      EscapedQuotesArePreceded(u[1..]);
      var head := if u[0] == '"' then ['\\', '"'] else [u[0]];
      var rest := EscapeQuotes(u[1..]);
      if u[1..] != [] {
        EscapeStart(u[1..]);
      }
      assert EscapeQuotes(u) == head + rest;
      forall i | 0 <= i < |head + rest| && (head + rest)[i] == '"'
        ensures 0 < i && (head + rest)[i - 1] == '\\'
      {
        if i >= |head| {
          assert rest[i - |head|] == '"';
        }
      }
    }
  }

  /** An address without quotes is written as it is. */
  lemma {:induction false} EscapeWithoutQuotes(u: string)
    requires '"' !in u
    ensures EscapeQuotes(u) == u
  {
    if u != [] {
      assert '"' !in u[1..];
      EscapeWithoutQuotes(u[1..]);
      assert u == [u[0]] + u[1..];
    }
  }

  // ---------------------------------------------------------------------------------------
  // Idempotence
  // ---------------------------------------------------------------------------------------

  /** Writing the six colour variables over a map that already holds them changes nothing. */
  lemma ColourWritesSettled(m: map<string, string>, v: ColourVars)
    requires PrimaryColor in m && m[PrimaryColor] == v.primary
    requires SecondaryColor in m && m[SecondaryColor] == v.secondary
    requires AccentColor in m && m[AccentColor] == v.accent
    requires PrimaryRgb in m && m[PrimaryRgb] == v.primaryRgb
    requires SecondaryRgb in m && m[SecondaryRgb] == v.secondaryRgb
    requires AccentRgb in m && m[AccentRgb] == v.accentRgb
    ensures WriteColourVars(m, v) == m
  {
  }

  /** Once non-blank fallback texts are written, the fallback writes change nothing more,
      whatever texts they are given. */
  lemma FallbackWritesSettled(rs: map<string, string>, sheet: map<string, string>, s: string, b: string,
                              s2: string, b2: string)
    requires Trim(s) != "" && Trim(b) != ""
    ensures WriteFallbackRgb(WriteFallbackRgb(rs, sheet, s, b), sheet, s2, b2) == WriteFallbackRgb(rs, sheet, s, b)
  {
    FallbacksNotBlank(rs, sheet, s, b);
  }

  /** With non-blank fallback texts, making the root writes a second time changes nothing. */
  lemma RootWritesIdempotent(rs: map<string, string>, sheet: map<string, string>, v: ColourVars,
                             s: string, b: string, s2: string, b2: string)
    requires Trim(s) != "" && Trim(b) != ""
    ensures var once := WriteFallbackRgb(WriteColourVars(rs, v), sheet, s, b);
      WriteFallbackRgb(WriteColourVars(once, v), sheet, s2, b2) == once
  {
    ColourVariablesWritten(rs, sheet, v, s, b);
    var once := WriteFallbackRgb(WriteColourVars(rs, v), sheet, s, b);
    ColourWritesSettled(once, v);
    FallbackWritesSettled(WriteColourVars(rs, v), sheet, s, b, s2, b2);
  }

  /** The root style after two applications equals the root style after one. */
  lemma RootStyleIdempotent(rs: map<string, string>, sheet: map<string, string>, cfg: Config)
    ensures RootStyleAfter(RootStyleAfter(rs, sheet, cfg), sheet, cfg) == RootStyleAfter(rs, sheet, cfg)
  {
    var once := RootStyleAfter(rs, sheet, cfg);
    var v := ColourVarsOf(ResolveColours(cfg.colors));
    ToRgbTextNotBlank(SurfaceValue(rs, sheet));
    ToRgbTextNotBlank(BorderValue(rs, sheet));
    RootWritesIdempotent(rs, sheet, v, ToRgbText(SurfaceValue(rs, sheet)), ToRgbText(BorderValue(rs, sheet)),
                         ToRgbText(SurfaceValue(once, sheet)), ToRgbText(BorderValue(once, sheet)));
  }

  /** Setting the style marker twice is setting it once. */
  lemma MarkerIdempotent(attrs: map<string, string>, style: string)
    ensures attrs[StyleAttribute := PresetOf(style)][StyleAttribute := PresetOf(style)]
         == attrs[StyleAttribute := PresetOf(style)]
  {
  }

  /** Writing the body's image address twice is writing it once. */
  lemma BodyStyleIdempotent(bs: map<string, string>, background: string, bgurl: string)
    ensures BodyStyleAfter(BodyStyleAfter(bs, background, bgurl), background, bgurl)
         == BodyStyleAfter(bs, background, bgurl)
  {
  }

  /** Applying the same configuration twice leaves the document as applying it once. */
  lemma ApplyThemeIdempotent(st: DomState, sheet: map<string, string>, cfg: Config)
    ensures ApplyThemeSpec(ApplyThemeSpec(st, sheet, cfg), sheet, cfg) == ApplyThemeSpec(st, sheet, cfg)
  {
    RootStyleIdempotent(st.rootStyle, sheet, cfg);
    MarkerIdempotent(st.rootAttributes, cfg.style);
    BodyClassesIdempotent(st.bodyClasses, cfg.background);
    BodyStyleIdempotent(st.bodyStyle, cfg.background, cfg.bgurl);
  }

  // ---------------------------------------------------------------------------------------
  // End to end
  // ---------------------------------------------------------------------------------------

  /** colors=Red,Green,Blue&style=solid parses to the tokens Red, Green, Blue, the style solid, the
      background solid and no image address. */
  lemma RedGreenBlueParsed()
    ensures ParseParams(Query(Some("Red,Green,Blue"), Some("solid"), None, None))
         == Config(["Red", "Green", "Blue"], "solid", "solid", "")
  {
    TrimUnchanged("Red");
    TrimUnchanged("Green");
    TrimUnchanged("Blue");
    assert "Red,Green,Blue" == "Red" + "," + "Green" + "," + "Blue";
    ThreeTokens("Red", "Green", "Blue");
    assert ToLower("solid") == "solid";
  }

  /** The colours Red, Green, Blue resolve to primary #ef4444, secondary #22c55e and accent
      #3b82f6. */
  lemma RedGreenBlueColours()
    ensures ResolveColours(["Red", "Green", "Blue"]) == Resolved("#ef4444", "#22c55e", "#3b82f6")
  {
    ThreeNames("Red", "Green", "Blue", 4, 5, 6);
  }

  /** Style solid and background solid give the style marker solid and the background class
      bg-solid. */
  lemma SolidKeywords()
    ensures PresetOf("solid") == "solid"
    ensures BackgroundClassOf("solid") == "bg-solid"
  {
    assert "solid" in StylePresets && "solid" in Backgrounds;
    assert "bg-" + "solid" == "bg-solid";
  }

  /** After colors=Red,Green,Blue&style=solid, applyTheme leaves the document with primary
      #ef4444, secondary #22c55e and accent #3b82f6, the style marker solid, the background
      class bg-solid on the body and no background image, whatever the document held before. */
  lemma RedGreenBlueApplied(st: DomState, sheet: map<string, string>)
    ensures var after := ApplyThemeSpec(st, sheet, ParseParams(Query(Some("Red,Green,Blue"), Some("solid"), None, None)));
      PrimaryColor in after.rootStyle && after.rootStyle[PrimaryColor] == "#ef4444"
      && SecondaryColor in after.rootStyle && after.rootStyle[SecondaryColor] == "#22c55e"
      && AccentColor in after.rootStyle && after.rootStyle[AccentColor] == "#3b82f6"
      && StyleAttribute in after.rootAttributes && after.rootAttributes[StyleAttribute] == "solid"
      && "bg-solid" in after.bodyClasses
      && BgImageUrl !in after.bodyStyle
  {
    var cfg := Config(["Red", "Green", "Blue"], "solid", "solid", "");
    RedGreenBlueParsed();
    RedGreenBlueColours();
    SolidKeywords();
    var rs := st.rootStyle;
    ColourVariablesWritten(rs, sheet, ColourVarsOf(ResolveColours(cfg.colors)),
                           ToRgbText(SurfaceValue(rs, sheet)), ToRgbText(BorderValue(rs, sheet)));
    ClassesAfterShape(st.bodyClasses, cfg.background);
    BackgroundImageRule(st.bodyStyle, cfg);
  }
}
