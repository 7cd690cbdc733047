/** applyTheme: the writes the theming routine makes to the document. The root element's inline
    style properties and attributes, the body's class list and the body's inline style are the
    state; the values the root receives from the stylesheets are a fixed map read through the
    computed style. */
module Theme {
  import opened Text
  import opened Color
  import opened Params

  const DefaultPrimary: string := "#7c3aed"
  const DefaultSecondary: string := "#14b8a6"
  const DefaultAccent: string := "#f59e0b"
  const DefaultSurface: string := "#ffffff"
  const DefaultBorder: string := "#dee2e6"
  const White: string := "#ffffff"

  const PrimaryColor: string := "--primary-color"
  const SecondaryColor: string := "--secondary-color"
  const AccentColor: string := "--accent-color"
  const PrimaryRgb: string := "--primary-rgb"
  const SecondaryRgb: string := "--secondary-rgb"
  const AccentRgb: string := "--accent-rgb"
  const Surface: string := "--surface"
  const Border: string := "--border"
  const SurfaceRgb: string := "--surface-rgb"
  const BorderRgb: string := "--border-rgb"
  const StyleAttribute: string := "data-walnut-style"
  const BgImageUrl: string := "--bg-image-url"

  /** The root style properties applyTheme may write. */
  const ThemeProperties: set<string> :=
    {PrimaryColor, SecondaryColor, AccentColor, PrimaryRgb, SecondaryRgb, AccentRgb, SurfaceRgb, BorderRgb}

  /** The style presets and background modes applyTheme recognises. */
  const StylePresets: seq<string> := ["glass", "sleek", "solid"]
  const Backgrounds: seq<string> := ["solid", "gradient", "animated", "image"]
  const BackgroundClasses: set<string> := {"bg-solid", "bg-gradient", "bg-animated", "bg-image"}

  /** What applyTheme can observe and change. */
  datatype DomState = DomState(
    rootStyle: map<string, string>,
    rootAttributes: map<string, string>,
    bodyClasses: seq<string>,
    bodyStyle: map<string, string>)

  /** A class list is an ordered set: no token appears twice. */
  predicate NoDuplicates(s: seq<string>) {
    forall i, j :: 0 <= i < j < |s| ==> s[i] != s[j]
  }

  /** The colour token at position `i` of the list, or undefined past its end. */
  function At(colors: seq<string>, i: nat): (r: Option<string>)
    ensures r.Some? <==> i < |colors|
    ensures r.Some? ==> r.value == colors[i]
  {
    if i < |colors| then Some(colors[i]) else None
  }

  /** The three resolved colours. */
  datatype Resolved = Resolved(primary: string, secondary: string, accent: string)

  /** The first three tokens, each resolved against its own fallback. */
  function ResolveColours(colors: seq<string>): Resolved {
    Resolved(ToHex(At(colors, 0), DefaultPrimary),
             ToHex(At(colors, 1), DefaultSecondary),
             ToHex(At(colors, 2), DefaultAccent))
  }

  /** String(n) for the numbers hexToRgbTuple yields. */
  function NumberText(n: JsNumber): string {
    match n
    case NaN => "NaN"
    case Finite(v) => IntText(v)
  }

  /** The channels joined as "r, g, b". */
  function RgbText(t: Rgb): string {
    NumberText(t.r) + ", " + NumberText(t.g) + ", " + NumberText(t.b)
  }

  /** toRGB: the decoded channels of `hex` as "r, g, b", reading white when `hex` does not
      start with '#'. */
  function ToRgbText(hex: string): string {
    RgbText(HexToRgbTuple(if |hex| > 0 && hex[0] == '#' then hex else White))
  }

  /** getComputedStyle(root).getPropertyValue(name): the inline value when one is set, else the
      stylesheets' value, else the empty string. */
  function ComputedValue(rootStyle: map<string, string>, sheet: map<string, string>, name: string): string {
    if name in rootStyle then rootStyle[name] else if name in sheet then sheet[name] else ""
  }

  /** `s || fallback` for a string. */
  function OrElse(s: string, fallback: string): string {
    if s == "" then fallback else s
  }

  /** The values of the six colour variables: the three resolved hex values and their
      "r, g, b" forms. */
  datatype ColourVars = ColourVars(primary: string, secondary: string, accent: string,
                                   primaryRgb: string, secondaryRgb: string, accentRgb: string)

  /** The six values applyTheme writes for the resolved colours `c`. */
  function ColourVarsOf(c: Resolved): ColourVars {
    ColourVars(c.primary, c.secondary, c.accent,
               RgbText(HexToRgbTuple(c.primary)), RgbText(HexToRgbTuple(c.secondary)),
               RgbText(HexToRgbTuple(c.accent)))
  }

  /** The six colour writes, in the order they are made. */
  function WriteColourVars(rs: map<string, string>, v: ColourVars): map<string, string> {
    rs[PrimaryColor := v.primary][SecondaryColor := v.secondary][AccentColor := v.accent]
      [PrimaryRgb := v.primaryRgb][SecondaryRgb := v.secondaryRgb][AccentRgb := v.accentRgb]
  }

  /** The surface value toRGB reads: the computed --surface, trimmed, or white. */
  function SurfaceValue(rs: map<string, string>, sheet: map<string, string>): string {
    OrElse(Trim(ComputedValue(rs, sheet, Surface)), DefaultSurface)
  }

  /** The border value toRGB reads: the computed --border, trimmed, or #dee2e6. */
  function BorderValue(rs: map<string, string>, sheet: map<string, string>): string {
    OrElse(Trim(ComputedValue(rs, sheet, Border)), DefaultBorder)
  }

  /** --surface-rgb and then --border-rgb, with the texts `surfaceRgb` and `borderRgb`, each
      written only when its computed value trims to the empty string. */
  function WriteFallbackRgb(rs: map<string, string>, sheet: map<string, string>,
                            surfaceRgb: string, borderRgb: string): map<string, string> {
    var rs1 := if Trim(ComputedValue(rs, sheet, SurfaceRgb)) == "" then rs[SurfaceRgb := surfaceRgb] else rs;
    if Trim(ComputedValue(rs1, sheet, BorderRgb)) == "" then rs1[BorderRgb := borderRgb] else rs1
  }

  /** The root style after applyTheme: the colour writes, then the surface and border fallbacks.
      applyTheme reads --surface and --border after the colour writes, which leave them as they
      were (ReadsUnaffected), so their values are taken from `rs`. */
  function RootStyleAfter(rs: map<string, string>, sheet: map<string, string>, cfg: Config): map<string, string> {
    WriteFallbackRgb(WriteColourVars(rs, ColourVarsOf(ResolveColours(cfg.colors))), sheet,
                     ToRgbText(SurfaceValue(rs, sheet)), ToRgbText(BorderValue(rs, sheet)))
  }

  /** The colour writes leave --surface and --border, and so the values read from them, as
      they were. */
  lemma ReadsUnaffected(rs: map<string, string>, sheet: map<string, string>, v: ColourVars)
    ensures SurfaceValue(WriteColourVars(rs, v), sheet) == SurfaceValue(rs, sheet)
    ensures BorderValue(WriteColourVars(rs, v), sheet) == BorderValue(rs, sheet)
  {
    var m := WriteColourVars(rs, v);
    assert (Surface in m <==> Surface in rs) && (Surface in rs ==> m[Surface] == rs[Surface]);
    assert (Border in m <==> Border in rs) && (Border in rs ==> m[Border] == rs[Border]);
  }

  /** The style preset marker: a recognised preset as given, anything else glass. */
  function PresetOf(style: string): string {
    if style in StylePresets then style else "glass"
  }

  /** The background class: bg- and a recognised mode, or bg-solid. */
  function BackgroundClassOf(background: string): string {
    "bg-" + if background in Backgrounds then background else "solid"
  }

  /** classList.remove: the tokens of `drop` leave the list, the rest keep their order. */
  function Without(classes: seq<string>, drop: set<string>): (r: seq<string>)
    ensures forall x :: x in r <==> x in classes && x !in drop
    ensures NoDuplicates(classes) ==> NoDuplicates(r)
  {
    if classes == [] then []
    else
      var rest := Without(classes[1..], drop);
      if classes[0] in drop then rest
      else
        assert NoDuplicates(classes) ==> classes[0] !in classes[1..];
        [classes[0]] + rest
  }

  /** classList.add: a token not yet present goes to the end. */
  function WithToken(classes: seq<string>, t: string): (r: seq<string>)
    ensures forall x :: x in r <==> x in classes || x == t
    ensures NoDuplicates(classes) ==> NoDuplicates(r)
  {
    if t in classes then classes else classes + [t]
  }

  /** The body's classes after applyTheme. */
  function BodyClassesAfter(classes: seq<string>, background: string): seq<string> {
    WithToken(Without(classes, BackgroundClasses), BackgroundClassOf(background))
  }

  /** bgurl.replace(/"/g, '\\"'): a backslash before every double quote. */
  function EscapeQuotes(u: string): string {
    if u == [] then []
    else (if u[0] == '"' then ['\\', '"'] else [u[0]]) + EscapeQuotes(u[1..])
  }

  /** The --bg-image-url value: url("...") around the escaped address. */
  function ImageUrl(bgurl: string): string {
    "url(\"" + EscapeQuotes(bgurl) + "\")"
  }

  /** The body's inline style after applyTheme. */
  function BodyStyleAfter(bs: map<string, string>, background: string, bgurl: string): map<string, string> {
    if background == "image" && bgurl != "" then bs[BgImageUrl := ImageUrl(bgurl)]
    else bs - {BgImageUrl}
  }

  /** The whole state after applyTheme(cfg). */
  function ApplyThemeSpec(st: DomState, sheet: map<string, string>, cfg: Config): DomState {
    DomState(RootStyleAfter(st.rootStyle, sheet, cfg),
             st.rootAttributes[StyleAttribute := PresetOf(cfg.style)],
             BodyClassesAfter(st.bodyClasses, cfg.background),
             BodyStyleAfter(st.bodyStyle, cfg.background, cfg.bgurl))
  }

  /** The document: the root element's inline style and attributes, the body's class list and
      inline style, and the stylesheet values the root's computed style falls back to. */
  class Document {
    var rootStyle: map<string, string>
    var rootAttributes: map<string, string>
    var bodyClasses: seq<string>
    var bodyStyle: map<string, string>
    const sheet: map<string, string>

    ghost predicate Valid()
      reads this`bodyClasses
    {
      NoDuplicates(bodyClasses)
    }

    function State(): DomState
      reads this
    {
      DomState(rootStyle, rootAttributes, bodyClasses, bodyStyle)
    }

    constructor (sheet: map<string, string>, initial: DomState)
      requires NoDuplicates(initial.bodyClasses)
      ensures Valid() && State() == initial && this.sheet == sheet
    {
      this.sheet := sheet;
      rootStyle := initial.rootStyle;
      rootAttributes := initial.rootAttributes;
      bodyClasses := initial.bodyClasses;
      bodyStyle := initial.bodyStyle;
    }

    /** root.style.setProperty(name, value). */
    method SetRootProperty(name: string, value: string)
      modifies this`rootStyle
      ensures unchanged(this`rootAttributes, this`bodyClasses, this`bodyStyle)
      ensures rootStyle == old(rootStyle)[name := value]
    {
      rootStyle := rootStyle[name := value];
    }

    /** getComputedStyle(root).getPropertyValue(name). */
    method GetComputedRootProperty(name: string) returns (v: string)
      ensures v == ComputedValue(rootStyle, sheet, name)
    {
      v := ComputedValue(rootStyle, sheet, name);
    }

    /** root.setAttribute(name, value). */
    method SetRootAttribute(name: string, value: string)
      modifies this`rootAttributes
      ensures unchanged(this`rootStyle, this`bodyClasses, this`bodyStyle)
      ensures rootAttributes == old(rootAttributes)[name := value]
    {
      rootAttributes := rootAttributes[name := value];
    }

    /** body.classList.remove(...tokens). */
    method RemoveBodyClasses(tokens: set<string>)
      modifies this`bodyClasses
      ensures bodyClasses == Without(old(bodyClasses), tokens)
    {
      bodyClasses := Without(bodyClasses, tokens);
    }

    /** body.classList.add(token). */
    method AddBodyClass(token: string)
      modifies this`bodyClasses
      ensures bodyClasses == WithToken(old(bodyClasses), token)
    {
      if token !in bodyClasses {
        bodyClasses := bodyClasses + [token];
      }
    }

    /** body.style.setProperty(name, value). */
    method SetBodyProperty(name: string, value: string)
      modifies this`bodyStyle
      ensures bodyStyle == old(bodyStyle)[name := value]
    {
      bodyStyle := bodyStyle[name := value];
    }

    /** body.style.removeProperty(name). */
    method RemoveBodyProperty(name: string)
      modifies this`bodyStyle
      ensures bodyStyle == old(bodyStyle) - {name}
    {
      bodyStyle := bodyStyle - {name};
    }

    /** The colour writes of applyTheme: the three resolved hex values, then their RGB forms. */
    method WriteColours(colors: seq<string>)
      modifies this`rootStyle
      ensures unchanged(this`rootAttributes, this`bodyClasses, this`bodyStyle)
      ensures rootStyle == WriteColourVars(old(rootStyle), ColourVarsOf(ResolveColours(colors)))
    {
      var P := ToHex(At(colors, 0), DefaultPrimary);
      var S := ToHex(At(colors, 1), DefaultSecondary);
      var A := ToHex(At(colors, 2), DefaultAccent);

      SetRootProperty(PrimaryColor, P);
      SetRootProperty(SecondaryColor, S);
      SetRootProperty(AccentColor, A);

      SetRootProperty(PrimaryRgb, RgbText(HexToRgbTuple(P)));
      SetRootProperty(SecondaryRgb, RgbText(HexToRgbTuple(S)));
      SetRootProperty(AccentRgb, RgbText(HexToRgbTuple(A)));
    }

    /** The surface and border writes of applyTheme, each made only when the computed value is blank. */
    method WriteFallbacks()
      modifies this`rootStyle
      ensures unchanged(this`rootAttributes, this`bodyClasses, this`bodyStyle)
      ensures rootStyle == WriteFallbackRgb(old(rootStyle), sheet,
        ToRgbText(SurfaceValue(old(rootStyle), sheet)), ToRgbText(BorderValue(old(rootStyle), sheet)))
    {
      var surface := GetComputedRootProperty(Surface);
      surface := OrElse(Trim(surface), DefaultSurface);
      var border := GetComputedRootProperty(Border);
      border := OrElse(Trim(border), DefaultBorder);
      var surfaceRgb := GetComputedRootProperty(SurfaceRgb);
      if Trim(surfaceRgb) == "" {
        SetRootProperty(SurfaceRgb, ToRgbText(surface));
      }
      var borderRgb := GetComputedRootProperty(BorderRgb);
      if Trim(borderRgb) == "" {
        SetRootProperty(BorderRgb, ToRgbText(border));
      }
    }

    /** The body writes of applyTheme: one background class, and the optional image address. */
    method WriteBackground(background: string, bgurl: string)
      modifies this`bodyClasses, this`bodyStyle
      ensures unchanged(this`rootStyle, this`rootAttributes)
      ensures bodyClasses == BodyClassesAfter(old(bodyClasses), background)
      ensures bodyStyle == BodyStyleAfter(old(bodyStyle), background, bgurl)
    {
      RemoveBodyClasses(BackgroundClasses);
      AddBodyClass(BackgroundClassOf(background));

      if background == "image" && bgurl != "" {
        SetBodyProperty(BgImageUrl, ImageUrl(bgurl));
      } else {
        RemoveBodyProperty(BgImageUrl);
      }
    }

    /** The root writes of applyTheme: colours, surface and border fallbacks, style marker. */
    method WriteRoot(cfg: Config)
      modifies this`rootStyle, this`rootAttributes
      ensures unchanged(this`bodyClasses, this`bodyStyle)
      ensures rootStyle == RootStyleAfter(old(rootStyle), sheet, cfg)
      ensures rootAttributes == old(rootAttributes)[StyleAttribute := PresetOf(cfg.style)]
    {
      ghost var before := rootStyle;
      WriteColours(cfg.colors);
      ReadsUnaffected(before, sheet, ColourVarsOf(ResolveColours(cfg.colors)));
      WriteFallbacks();
      SetRootAttribute(StyleAttribute, PresetOf(cfg.style));
    }

    /** applyTheme(cfg), write by write. */
    method ApplyTheme(cfg: Config)
      requires Valid()
      modifies this
      ensures Valid()
      ensures State() == ApplyThemeSpec(old(State()), sheet, cfg)
    {
      WriteRoot(cfg);
      WriteBackground(cfg.background, cfg.bgurl);
    }
  }

  /** init: parse the query values and apply the resulting configuration. */
  method Init(doc: Document, q: Query)
    requires doc.Valid()
    modifies doc
    ensures doc.Valid()
    ensures doc.State() == ApplyThemeSpec(old(doc.State()), doc.sheet, ParseParams(q))
  {
    doc.ApplyTheme(ParseParams(q));
  }
}
