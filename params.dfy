/** Normalisation of the raw query values into the configuration that applyTheme takes. */
module Params {
  import opened Text
  import opened Color

  /** The raw query values, as URLSearchParams.get returns them: absent, or a string. */
  datatype Query = Query(colors: Option<string>, style: Option<string>,
                         background: Option<string>, bgurl: Option<string>)

  /** The configuration parseParams returns. */
  datatype Config = Config(colors: seq<string>, style: string, background: string, bgurl: string)

  const DefaultColors: string := "Purple,Teal,Amber"
  const DefaultStyle: string := "glass"
  const DefaultBackground: string := "solid"

  /** `value || fallback` for a query value: an absent or empty value gives the fallback. */
  function OrDefault(v: Option<string>, fallback: string): (r: string)
    ensures v.Some? && v.value != "" ==> r == v.value
    ensures v.None? || v.value == "" ==> r == fallback
  {
    if v.None? || v.value == "" then fallback else v.value
  }

  /** Every piece trimmed (Array.prototype.map with trim). */
  function TrimAll(pieces: seq<string>): seq<string> {
    seq(|pieces|, i requires 0 <= i < |pieces| => Trim(pieces[i]))
  }

  /** Three pieces that are their own trims are left alone by TrimAll. */
  lemma TrimAllUnchanged3(a: string, b: string, c: string)
    requires Trim(a) == a && Trim(b) == b && Trim(c) == c
    ensures TrimAll([a, b, c]) == [a, b, c]
  {
  }

  /** The colour tokens: the raw list (or the default list) split at commas, each piece trimmed. */
  function ColorTokens(raw: Option<string>): seq<string> {
    TrimAll(Split(OrDefault(raw, DefaultColors), ','))
  }

  /** parseParams, from the query values on: colour tokens, the lower-cased style and background
      keywords, and the image URL (empty when absent). */
  function ParseParams(q: Query): Config {
    Config(ColorTokens(q.colors),
           ToLower(OrDefault(q.style, DefaultStyle)),
           ToLower(OrDefault(q.background, DefaultBackground)),
           OrDefault(q.bgurl, ""))
  }

  /** A list of three comma-free, already trimmed tokens gives exactly those three tokens. */
  lemma ThreeTokens(a: string, b: string, c: string)
    requires ',' !in a && ',' !in b && ',' !in c
    requires Trim(a) == a && Trim(b) == b && Trim(c) == c
    ensures ColorTokens(Some(a + "," + b + "," + c)) == [a, b, c]
  {
    var p := [a, b, c];
    assert p[1..] == [b, c] && p[1..][1..] == [c];
    assert Join([c], ',') == c;
    assert Join([b, c], ',') == b + [','] + c;
    assert Join(p, ',') == a + [','] + (b + [','] + c);
    assert a + [','] + (b + [','] + c) == a + "," + b + "," + c;
    SplitJoin(p, ',');
    TrimAllUnchanged3(a, b, c);
  }

  /** A missing or empty colour list gives the tokens Purple, Teal, Amber. */
  lemma DefaultTokens(raw: Option<string>)
    requires raw.None? || raw.value == ""
    ensures ColorTokens(raw) == ["Purple", "Teal", "Amber"]
  {
    TrimUnchanged("Purple");
    TrimUnchanged("Teal");
    TrimUnchanged("Amber");
    assert DefaultColors == "Purple" + "," + "Teal" + "," + "Amber";
    ThreeTokens("Purple", "Teal", "Amber");
  }

  /** A non-empty colour list with k commas gives k + 1 tokens, empty pieces included, each the
      trimmed text between consecutive commas; the pieces joined back give the raw list. */
  lemma TokensAreTrimmedPieces(raw: string)
    requires raw != ""
    ensures var pieces, tokens := Split(raw, ','), ColorTokens(Some(raw));
      |tokens| == |pieces| == multiset(raw)[','] + 1
      && Join(pieces, ',') == raw
      && forall i :: 0 <= i < |tokens| ==> tokens[i] == Trim(pieces[i]) && ',' !in pieces[i]
  {
    JoinSplit(raw, ',');
    SplitPieces(raw, ',');
  }

  /** The style keyword is the raw style (or glass) lower-cased, whatever its casing. */
  lemma StyleIsLowered(q: Query)
    ensures ParseParams(q).style == ToLower(OrDefault(q.style, DefaultStyle))
    ensures forall i :: 0 <= i < |ParseParams(q).style| ==> !('A' <= ParseParams(q).style[i] <= 'Z')
    ensures q.style.None? ==> ParseParams(q).style == "glass"
  {
  }
}
