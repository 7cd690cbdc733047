# Walnut UI theming routine, modelled in Dafny

Walnut UI ships one file, `walnut-ui.js`. Lines 1-1261 are CSS rules written as plain text, and
lines 1262-1354 are a JavaScript function expression that is invoked at once. That function
themes the page from the query string of its own `<script src>`:

- `colors` is a comma list of up to three colour tokens: palette names or hex literals.
- `style` is the preset marker: `glass`, `sleek` or `solid`.
- `background` is the body background: `solid`, `gradient`, `animated` or `image`.
- `bgurl` is an optional image address.

The model treats that function as if it ran on its own, as a script holding only lines
1262-1354. As the file is written, a browser loading it as a script would meet the CSS text
first. The rule `root {` at walnut-ui.js:42 is not valid JavaScript, so on a reading of the text
the function would never run (this was not executed). The selector `root`, without a colon,
matches no HTML element either, so even loaded as CSS those rules would give the root element no
`--surface` or `--border`. For this reason the model does not fix the stylesheet's values: `sheet` may be any map.

This project models the logic in that function:

- the `COLOR_MAP` palette;
- the `isHex` validator;
- the `toHex` token resolver;
- the `hexToRgbTuple` decoder;
- the normalisation `parseParams` applies to the raw query values;
- `applyTheme`, which writes:
  - the six colour variables and the two surface/border fallbacks on the root element's inline style;
  - the `data-walnut-style` attribute on the root element;
  - one `bg-*` class on the body;
  - the optional `--bg-image-url` on the body's inline style.

Modules:

- `Text` (`text.dfy`) is the part of the ECMAScript string library the routine uses: `trim`,
  `toLowerCase`, `split` with a one-character separator, and `String(n)` for integers. Its `Join`
  exists only to state that `split` can be inverted. The routine's own joins, `join('')` in
  the shorthand expansion and `join(", ")` in `toRGB`, are modelled by `Color.ExpandShorthand`
  and `Theme.RgbText`.
- `Color` (`color.dfy`) holds the palette (walnut-ui.js:1264-1270), `IsHex` (1271, the regular
  expression written out), `ToHex` (1272-1278), and `HexToRgbTuple` (1279-1284), a decoder whose
  `ParseIntHex` follows `parseInt(…, 16)` (1282) step by step. For a valid literal the
  decoder's results are proved to be bytes. It also has a hex encoder, used to state the
  decoder's round trips.
- `Params` (`params.dfy`) has `ParseParams` (walnut-ui.js:1290-1293), which turns the raw query
  values (absent, or a string) into the configuration `{colors, style, background, bgurl}`.
- `Theme` (`theme.dfy`) holds the document state and the specification of `applyTheme`:
  - `DomState` is the document state: root style, root attributes, body classes and body style.
  - `ApplyThemeSpec` says what applying `cfg` does to that state (walnut-ui.js:1298-1344). It is
    built from `ToRgbText`, the `toRGB` helper (1322), and `EscapeQuotes`, the quote escaping of
    the image address (1340).
  - The `Document` class has those four parts as fields. Its methods make the routine's writes
    one `setProperty`/`setAttribute`/`classList` call at a time. `Document.ApplyTheme` is proved
    to leave exactly `ApplyThemeSpec(old state)`.
- `ThemeFacts` (`theme_facts.dfy`) proves what the routine promises about each part of the
  state:
  - which root properties change, and to what;
  - the fallbacks are written only when blank;
  - the style marker is always one of three presets;
  - exactly one background class is set;
  - the image address is escaped;
  - applying a configuration twice is applying it once.

The stylesheets' own values for the root properties are a fixed map, `sheet`.
`getComputedStyle(root).getPropertyValue(name)` is modelled as the inline value if present,
else the sheet's value, else `""`.

Where the code is narrower than what one might expect of such a routine, the model follows the
code:

- Colour tokens are not filtered: empty pieces of the list stay in place.
- The list is not padded with defaults. A missing position is `undefined` and takes
  `toHex`'s positional fallback (`SingleToken`).
- There is no `rgb()`/`hsl()` passthrough and no luminance-based shade choice.

`applyTheme` reads `--surface` and `--border` after it has written the colour variables.
`RootStyleAfter` takes those two values from the style as it was before the writes.
`Theme.ReadsUnaffected` proves that both readings agree, and `Document.WriteRoot` relies on it.

## Model

| member | source | states |
|---|---|---|
| Text.TrimStartIsSuffix | walnut-ui.js:1274 | trimming the start keeps a suffix that does not begin with white space, and only white space is dropped |
| Text.TrimEndIsPrefix | walnut-ui.js:1274 | trimming the end keeps a prefix that does not end with white space, and only white space is dropped |
| Text.TrimIsSlice | walnut-ui.js:1290 | `trim` keeps exactly the middle slice of its input, bordered by non-white-space and with only white space cut on either side |
| Text.TrimIdempotent | walnut-ui.js:1290 | trimming twice is trimming once |
| Text.TrimNonEmpty | walnut-ui.js:1323 | a string holding a non-white-space character does not trim to the empty string |
| Text.TrimUnchanged | walnut-ui.js:1290 | a string that neither starts nor ends with white space is its own trim |
| Text.LowerChar | walnut-ui.js:1276 | the lower-cased character is never an ASCII capital; it is the input, the capital moved to its small letter, or `k` for the Kelvin sign |
| Text.ToLowerIdempotent | walnut-ui.js:1292 | lower-casing twice is lower-casing once |
| Text.SplitPieces | walnut-ui.js:1290 | a text with k commas splits into k + 1 pieces, none holding a comma |
| Text.JoinSplit | walnut-ui.js:1290 | joining the pieces of a split gives the text back |
| Text.SplitJoin | walnut-ui.js:1290 | splitting a join of separator-free pieces gives the pieces back |
| Text.SplitPiece | walnut-ui.js:1290 | the split of `p + sep + t`, with `p` separator-free, is `p` followed by the split of `t` |
| Text.DigitChar | walnut-ui.js:1314-1316 | the decimal digit character for a value below ten, with that value |
| Text.NatText | walnut-ui.js:1314-1316 | the decimal text of a number is non-empty and all digits; it starts with 0 only for 0, and is then exactly "0" |
| Text.NatTextRoundTrip | walnut-ui.js:1314-1316 | reading the decimal text of a number gives the number back |
| Color.PaletteIsHex | walnut-ui.js:1264-1270 | every palette value satisfies `isHex` |
| Color.PaletteNamesDistinct | walnut-ui.js:1264-1270 | the palette names are distinct ignoring case, so the case-insensitive lookup is unambiguous |
| Color.PaletteNamesAreWords | walnut-ui.js:1264-1270 | every palette name has at least three characters and starts with a capital letter |
| Color.PaletteNameNotHex | walnut-ui.js:1264-1271 | no palette name, in any casing, satisfies `isHex` |
| Color.FindName | walnut-ui.js:1276 | the index `find` returns over the palette keys lies in the searched range |
| Color.FindNameFirst | walnut-ui.js:1276 | `find` returns the first key that matches ignoring case, and nothing only when no key matches |
| Color.LookupFindsEntry | walnut-ui.js:1276 | a token equal to palette name `i` ignoring case finds entry `i` |
| Color.ToHexMissing | walnut-ui.js:1273 | an undefined or empty token gives the fallback |
| Color.ToHexLiteral | walnut-ui.js:1274-1275 | a token whose trim satisfies `isHex` gives that trimmed literal, unchanged |
| Color.ToHexNamed | walnut-ui.js:1276-1277 | a token whose trim equals a palette name ignoring case gives that palette value |
| Color.ToHexUnknown | walnut-ui.js:1276-1277 | any other token gives the fallback |
| Color.ToHexIsHex | walnut-ui.js:1272-1278 | with a fallback satisfying `isHex`, `toHex` always returns a string satisfying `isHex` |
| Color.DigitValue | walnut-ui.js:1282 | a hexadecimal digit's value is below sixteen |
| Color.HexDigitPrefix | walnut-ui.js:1282 | the digits `parseInt` reads are the longest prefix made of hexadecimal digits |
| Color.RemoveFirst | walnut-ui.js:1280 | `replace('#','')` shortens the text by one when `#` occurs, changes nothing when it does not, and drops a leading `#` |
| Color.RemoveFirstSplit | walnut-ui.js:1280 | the character removed is the first `#`: removing it from `p + "#" + q`, with no `#` in `p`, gives `p + q` |
| Color.ByteValue | walnut-ui.js:1282 | two hexadecimal digits spell a value below 256 |
| Color.ParsePair | walnut-ui.js:1282 | `parseInt(…, 16)` of two hexadecimal digits is the byte they spell |
| Color.Digits6 | walnut-ui.js:1281 | a hex literal stands for six hexadecimal digits once its shorthand is expanded |
| Color.DecodeHex | walnut-ui.js:1279-1284 | a hex literal decodes to the three bytes its expanded digits spell |
| Color.DecodeHexInRange | walnut-ui.js:1279-1284 | every channel of a decoded hex literal is an integer in 0..255 |
| Color.ShorthandSameAsLong | walnut-ui.js:1281 | `#xyz` decodes to the same triple as `#xxyyzz` |
| Color.DecodeWhite | walnut-ui.js:1279-1284 | `#fff` decodes to 255, 255, 255 |
| Color.DecodeBlack | walnut-ui.js:1279-1284 | `#000000` decodes to 0, 0, 0 |
| Color.HexDigitChar | walnut-ui.js:1282 | the lower-case digit for a value below sixteen: a hex digit with that value |
| Color.RgbToHex | walnut-ui.js:1279-1284 | the encoder, the decoder's inverse, yields a seven-character hex literal |
| Color.DecodeEncode | walnut-ui.js:1279-1284 | decoding the encoding of a byte triple gives the triple back |
| Color.EncodeDecode | walnut-ui.js:1279-1284 | encoding the decoded triple of a hex literal gives its expanded digits, lower-cased |
| Params.ThreeTokens | walnut-ui.js:1290 | a list of three comma-free, trimmed tokens gives exactly those tokens |
| Params.DefaultTokens | walnut-ui.js:1290 | a missing or empty `colors` value gives `["Purple","Teal","Amber"]` |
| Params.TokensAreTrimmedPieces | walnut-ui.js:1290 | a value with k commas gives k + 1 tokens, empty ones kept, each the trimmed text between commas |
| Params.StyleIsLowered | walnut-ui.js:1291 | the style keyword is the raw style (or `glass`) lower-cased, with no capital left |
| Theme.ReadsUnaffected | walnut-ui.js:1306-1321 | the colour writes leave the `--surface` and `--border` values read afterwards as they were |
| Theme.Without | walnut-ui.js:1335 | `classList.remove` keeps exactly the classes outside the removed set, and a duplicate-free list stays duplicate-free |
| Theme.WithToken | walnut-ui.js:1336 | `classList.add` gives the old classes plus the token, and a duplicate-free list stays duplicate-free |
| Theme.Document.SetRootProperty | walnut-ui.js:1306 | `setProperty` maps the name to the value and changes nothing else |
| Theme.Document.SetRootAttribute | walnut-ui.js:1331 | `setAttribute` maps the name to the value and changes nothing else |
| Theme.Document.RemoveBodyClasses | walnut-ui.js:1335 | the body's classes become `Without(old, tokens)` |
| Theme.Document.AddBodyClass | walnut-ui.js:1336 | the body's classes become `WithToken(old, token)` |
| Theme.Document.SetBodyProperty | walnut-ui.js:1340 | the body's style maps the name to the value |
| Theme.Document.RemoveBodyProperty | walnut-ui.js:1342 | the body's style loses the name |
| Theme.Document.WriteColours | walnut-ui.js:1300-1316 | the six colour variables get the resolved hex values and their "r, g, b" forms; nothing else changes |
| Theme.Document.WriteFallbacks | walnut-ui.js:1320-1328 | `--surface-rgb`, then `--border-rgb`, are written from the read surface and border values only when blank; nothing else changes |
| Theme.Document.WriteBackground | walnut-ui.js:1334-1343 | the body's classes and style become `BodyClassesAfter` and `BodyStyleAfter`; the root is untouched |
| Theme.Document.WriteRoot | walnut-ui.js:1300-1331 | the root style becomes `RootStyleAfter` and the marker is set; the body is untouched |
| Theme.Document.ApplyTheme | walnut-ui.js:1298-1344 | the whole document state becomes `ApplyThemeSpec` of the old state, and the body's class list stays duplicate-free |
| Theme.Init | walnut-ui.js:1347-1349 | `init` applies the configuration parsed from the query values |
| ThemeFacts.ResolvedAreHex | walnut-ui.js:1301-1303 | the three resolved colours always satisfy `isHex`, so the decoder always reads valid literals |
| ThemeFacts.ExtraTokensIgnored | walnut-ui.js:1300 | tokens beyond the third do not matter |
| ThemeFacts.MissingTokensFallBack | walnut-ui.js:1300-1303 | missing or empty primary, secondary and accent tokens resolve to `#7c3aed`, `#14b8a6` and `#f59e0b` |
| ThemeFacts.SingleToken | walnut-ui.js:1290-1303 | a comma-free list is one trimmed token; secondary and accent take their fallbacks, not entries of the default list |
| ThemeFacts.ThreeNames | walnut-ui.js:1301-1303 | three palette names resolve to their three palette values |
| ThemeFacts.KelvinSignName | walnut-ui.js:1276-1277 | `PIN` followed by the Kelvin sign names Pink, because `toLowerCase` turns the Kelvin sign into `k`, and gives `#ec4899` |
| ThemeFacts.DefaultListResolvesToFallbacks | walnut-ui.js:1290-1303 | Purple, Teal, Amber resolve to exactly the three positional fallbacks |
| ThemeFacts.ByteTriple | walnut-ui.js:1311-1316 | a hex literal's decoded triple is three bytes, written as "r, g, b" in decimal |
| ThemeFacts.RgbTextFields | walnut-ui.js:1314-1316 | an "r, g, b" text splits at commas into three fields whose trims read back as r, g and b |
| ThemeFacts.SpacedDigits | walnut-ui.js:1314-1316 | a space followed by decimal text trims to the decimal text |
| ThemeFacts.RgbTextNotBlank | walnut-ui.js:1314-1316 | an "r, g, b" text never trims to the empty string |
| ThemeFacts.ToRgbTextOfNonHash | walnut-ui.js:1322 | `toRGB` of a value not starting with `#` reads `#ffffff` |
| ThemeFacts.WhiteIsFull | walnut-ui.js:1322 | `#ffffff` decodes to 255, 255, 255 |
| ThemeFacts.ColourWritesKeepOthers | walnut-ui.js:1306-1316 | the colour writes touch only the six colour variables |
| ThemeFacts.FallbacksKeepOthers | walnut-ui.js:1323-1328 | the fallback writes touch only `--surface-rgb` and `--border-rgb` |
| ThemeFacts.ColourWritesKeepFallbackInputs | walnut-ui.js:1306-1326 | the colour writes leave the computed `--surface-rgb` and `--border-rgb` as they were |
| ThemeFacts.ColourVariablesWritten | walnut-ui.js:1306-1316 | after the root writes the six colour variables hold exactly the given values |
| ThemeFacts.RgbVariablesAreBytes | walnut-ui.js:1311-1316 | each `-rgb` variable is the "r, g, b" text of the three bytes of its hex variable |
| ThemeFacts.SurfaceRgbRule | walnut-ui.js:1323-1325 | `--surface-rgb` is written only when its computed value is blank; a value already there, inline or from the sheet, is kept |
| ThemeFacts.BorderRgbRule | walnut-ui.js:1326-1328 | `--border-rgb` is written only when its computed value is blank; a value already there is kept |
| ThemeFacts.OtherRootPropertiesUnchanged | walnut-ui.js:1306-1328 | no root property outside the theme's eight is added, removed or changed |
| ThemeFacts.FallbacksNotBlank | walnut-ui.js:1323-1328 | with non-blank texts, both fallback properties have non-blank computed values afterwards |
| ThemeFacts.ColourVarsNotBlank | walnut-ui.js:1301-1316 | none of the six colour values is blank |
| ThemeFacts.ToRgbTextNotBlank | walnut-ui.js:1322 | `toRGB` never yields a blank text |
| ThemeFacts.ThemePropertiesWritten | walnut-ui.js:1306-1328 | with non-blank values, every theme property has a non-blank computed value after the root writes |
| ThemeFacts.ThemePropertiesResolved | walnut-ui.js:1298-1328 | after `applyTheme` every theme property has a non-blank computed value |
| ThemeFacts.StyleMarkerRule | walnut-ui.js:1331 | `data-walnut-style` is always glass, sleek or solid: a recognised style as given, anything else glass; no other attribute changes |
| ThemeFacts.QueryStyleExamples | walnut-ui.js:1291-1331 | `style=SLEEK` and `style=SLEE` followed by the Kelvin sign select sleek, and an unknown style selects glass, whatever the other query values |
| ThemeFacts.BackgroundClassRule | walnut-ui.js:1336 | the added class is `bg-` plus a recognised background, or `bg-solid`, and always one of the four |
| ThemeFacts.WithoutAppend | walnut-ui.js:1335 | `classList.remove` distributes over concatenation |
| ThemeFacts.WithoutAbsent | walnut-ui.js:1335 | removing absent classes leaves the list as it was |
| ThemeFacts.ClassesAfterShape | walnut-ui.js:1335-1336 | the classes afterwards are the other classes in their order, then the chosen background class |
| ThemeFacts.BodyClassesRule | walnut-ui.js:1335-1336 | exactly one background class remains, the chosen one, last; the other classes are untouched; no class appears twice |
| ThemeFacts.BodyClassesIdempotent | walnut-ui.js:1335-1336 | making the class writes twice is making them once |
| ThemeFacts.BackgroundImageRule | walnut-ui.js:1339-1343 | `--bg-image-url` is set to `url("…")` around the escaped address exactly when background is image and an address is given, and is removed otherwise; nothing else changes |
| ThemeFacts.EscapeStart | walnut-ui.js:1340 | the escaped address starts with a backslash where the address starts with a quote, and is never started by a quote |
| ThemeFacts.EscapeRoundTrip | walnut-ui.js:1340 | reading `\"` back as `"` gives the address back from its escaped form |
| ThemeFacts.EscapedQuotesArePreceded | walnut-ui.js:1340 | every quote in the escaped address is preceded by a backslash |
| ThemeFacts.EscapeWithoutQuotes | walnut-ui.js:1340 | an address without quotes is left as it is |
| ThemeFacts.ColourWritesSettled | walnut-ui.js:1306-1316 | writing the colour variables over a style that already holds them changes nothing |
| ThemeFacts.FallbackWritesSettled | walnut-ui.js:1323-1328 | once non-blank fallbacks are written, the fallback writes change nothing further |
| ThemeFacts.RootWritesIdempotent | walnut-ui.js:1306-1328 | with non-blank fallback texts, making the root writes twice is making them once |
| ThemeFacts.RootStyleIdempotent | walnut-ui.js:1298-1328 | the root style after two applications equals the root style after one |
| ThemeFacts.MarkerIdempotent | walnut-ui.js:1331 | setting the style marker twice is setting it once |
| ThemeFacts.BodyStyleIdempotent | walnut-ui.js:1339-1343 | writing the image address twice is writing it once |
| ThemeFacts.ApplyThemeIdempotent | walnut-ui.js:1298-1344 | applying a configuration twice leaves the document as applying it once |
| ThemeFacts.RedGreenBlueParsed | walnut-ui.js:1290-1293 | `colors=Red,Green,Blue&style=solid` parses to the tokens Red, Green, Blue, style solid, background solid and no address |
| ThemeFacts.RedGreenBlueColours | walnut-ui.js:1301-1303 | Red, Green, Blue resolve to `#ef4444`, `#22c55e` and `#3b82f6` |
| ThemeFacts.SolidKeywords | walnut-ui.js:1331-1336 | style and background solid give the marker solid and the class `bg-solid` |
| ThemeFacts.RedGreenBlueApplied | walnut-ui.js:1287-1344 | from any document, `colors=Red,Green,Blue&style=solid` leaves primary `#ef4444`, secondary `#22c55e`, accent `#3b82f6`, the marker solid, the class `bg-solid` and no `--bg-image-url` |

## Left out

- The CSS text (walnut-ui.js:1-1261) has no behaviour of its own and is not modelled. As the introduction notes, its `root {` at line 42 would stop the file from running as a script (not executed).
- Script self-discovery and URL parsing (walnut-ui.js:1287-1289), meaning `document.currentScript`, `document.scripts` and `new URL`, are browser plumbing. The raw query values are parameters of type `Query`.
- The CSS cascade behind `getComputedStyle` is reduced to "inline value, else a fixed stylesheet value, else empty". Specificity, inheritance and other properties are not modelled.
- `console.log` (walnut-ui.js:1350), and the `DOMContentLoaded` and `readyState` check (walnut-ui.js:1353), are logging and event wiring. `Theme.Init` is the parse-then-apply step.
- Text.LowerChar: lowers the ASCII capitals and the Kelvin sign (U+212A, which `toLowerCase` turns into `k`) and leaves every other character as it is. The routine compares lowered text only with ASCII keys: palette names and the style and background keywords. Apart from ASCII characters and the Kelvin sign, every character lowers to text that still holds a non-ASCII character (U+0130, for one, becomes `i` and a combining dot), so a text containing one never equals a key, in JavaScript or in the model. A text holding other upper-case letters therefore gives a different stored `style`/`background` text from JavaScript's, but the same marker and class. `Text.ToLower` keeps the length, whereas `toLowerCase` lengthens some texts (U+0130 becomes two code units).
- Strings are sequences of Dafny characters (Unicode scalar values) rather than UTF-16 code units. Lengths therefore differ from JavaScript's for characters outside the basic plane, and so can results. `hexToRgbTuple`'s `h.length === 3` test and its `slice` calls count code units. So `toRGB` (walnut-ui.js:1322) decodes a computed value such as `#a` followed by U+1F600 differently. In JavaScript `h` is three code units, it is expanded, and red is 170. In the model `h` is two characters, it is not expanded, and red is 10.
- CSS validation is not modelled: `setProperty` is taken to store any value text. Every value the routine writes is non-blank, so the removal that `setProperty` performs for an empty value cannot arise. The six colour values are covered by `ColourVarsNotBlank`, the two fallbacks by `ToRgbTextNotBlank`, and `--bg-image-url` by `BackgroundImageRule`, which makes its value `url("…")`.
- Text.IntText: `String(n)` is modelled for integers only. The decoder yields integers or NaN, and NaN is written as "NaN".
- ThemeFacts.EscapeRoundTrip: the escaping is read back with the routine's own rule (`\"` stands for `"`), not with CSS string syntax. The routine escapes quotes but not backslashes, so an address ending in a backslash escapes the closing quote of `url("…")`; the model records the value written, not how CSS later parses it.
- A missing body is not modelled: the model assumes `document.body` exists. Were it null, `b.classList` at walnut-ui.js:1335 would throw a TypeError after the root writes had been made, and the body writes would be skipped.
- DOM events and the timing of style recalculation are not modelled, and neither are concurrent scripts touching the same elements.
