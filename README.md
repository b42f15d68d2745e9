# Text-to-placement pipeline of the three.js sketches

Two of the sketches (`assignment2` and `prototype4`) turn a piece of text into
a 3D scene. The text is tokenized: every `.` is removed, the text is
lower-cased, and it is split on the regular expression `/[^\w']+/`. The
tokens are then scanned for search terms. Every token equal to a term adds a
batch of meshes at a height of `(100 / tokenCount) * index * 0.2`. Each
`drawCube` call fixes a mesh's geometry, material, scale, rotation and
position. Its x and z come from `Math.random`.

This project models that pipeline and proves what it promises:

- the tokens are clean;
- splitting is a bijection with the interleaving of tokens and delimiter runs;
- drawCube runs exactly `count` times per matching index and never otherwise;
- the calls are exactly the (matching index, inner counter) pairs, in order;
- heights ascend and stay in [0, 20), and the mesh y in [-10, 10);
- x and z stay inside the term's diameter;
- each call adds exactly one mesh to its own group, and a glowing material
  exactly when the term is emissive;
- saveTerms and the prototype's driver keep their call order.

Modules:

- `Tokenizer` (Tokenizer.dfy): the pure chain `StripPeriods`, `LowerAscii`,
  `SplitOnDelims`, and its inverse `Interleave` over `DelimiterRuns`.
- `Layout` (Layout.dfy): the specification of the nested scanning loops.
  `Placements` is the ordered list of drawCube calls, each with its term,
  token index, height and inner counter.
- `SceneGraph` (SceneGraph.dfy): meshes as records, a `Group` class whose
  `Add` appends a child, and `Math.random` as an `Rng` object. An `Rng`
  reads a fixed but unknown stream of draws in [0, 1) and counts how many it
  has used. The mesh a call produces is therefore known exactly, as a
  function of the draws.
- `Assignment2` (Assignment2.dfy): the module-level state of
  `assignment2/script.js` as a class `Sketch`, with its imperative methods
  proved against the `Layout` specification.
- `Prototype4` (Prototype4.dfy): the same for `prototype4/script.js`. It has
  its fixed text, its 100 boxes per match and its four driver calls.
- `Examples` (Examples.dfy): worked examples. "Hello World." tokenizes to
  `["hello", "world"]`, and "army army shadow army" tokenizes to its four
  words, in which "army" is drawn at heights 0, 5 and 15.

Three behaviours of the code differ from what a reader might expect, and the
model follows the code:

- The empty term is not given "zero matches". The code compares with `===`,
  so the empty term matches the empty tokens that a leading or trailing
  delimiter produces. `Assignment2.EmptyTextScan` shows that saving the
  initial empty text gives the token list `[""]`.
- There is no guard on the division by the token count. None is needed:
  `Tokenizer.Tokenize` proves that the list is never empty.
- Scanning before the first save does not return an empty result. Reading
  the length of the still-undefined `tokenizedText` throws before any mesh
  is drawn. The model returns `ok == false` with nothing changed, and in
  `saveTerms` that throw skips the other two terms.

The source spells the emissive flag `emmissive`; the model calls it `emissive`.
The prototype's text constant is written as `"Jinwoo" + (" " + rest)`. It is
the same string as the sketch's single literal, split so that the verifier
sees where the first word ends.

## Model

| member | source | states |
|---|---|---|
| Tokenizer.StripPeriods | assignment2/script.js:315 | no `.` remains and the text never grows |
| Tokenizer.StripPeriodsCounts | assignment2/script.js:315 | every character other than `.` keeps its number of occurrences, and the length drops by exactly the number of periods |
| Tokenizer.LowerChar | assignment2/script.js:315 | A–Z map to a–z (code point + 32), everything else is unchanged, and whether a character is a token character is preserved |
| Tokenizer.LowerAscii | assignment2/script.js:315 | the length is unchanged |
| Tokenizer.LowerAsciiPointwise | assignment2/script.js:315 | each character is lowered in place on its own, and no ASCII capital is left |
| Tokenizer.SplitOnDelims | assignment2/script.js:318 | at least one piece; for a non-empty text, the first piece is empty exactly when the text starts with a delimiter, and otherwise starts with the text's first character |
| Tokenizer.DelimiterRuns | assignment2/script.js:318 | one run fewer than pieces; a text that starts with a delimiter has a first run starting with it |
| Tokenizer.SplitPieces | assignment2/script.js:318 | every piece holds only `[A-Za-z0-9_']` taken from the text, and only the first and last pieces may be empty |
| Tokenizer.RunsAreDelimiters | assignment2/script.js:318 | every run is non-empty and holds only delimiters |
| Tokenizer.SplitIsWellFormed | assignment2/script.js:318 | the pieces and runs of any text form a well-formed decomposition, the domain on which InterleaveThenSplit inverts the split |
| Tokenizer.Tokenize | assignment2/script.js:315-318 | the token list is never empty, so the later division by its length is defined |
| Tokenizer.SplitThenInterleave | assignment2/script.js:318 | putting the delimiter runs back between the tokens gives the parsed text back exactly |
| Tokenizer.InterleaveThenSplit | assignment2/script.js:318 | splitting any well-formed interleaving of tokens and maximal runs recovers those tokens and runs, so the split is a bijection |
| Tokenizer.SplitAfterToken | assignment2/script.js:318 | token characters in front of a text join its first piece |
| Tokenizer.SplitAfterRun | assignment2/script.js:318 | a delimiter run in front of a text that starts with a token character adds one empty piece and one run |
| Tokenizer.TokensAreClean | assignment2/script.js:315-318 | every token has only `[A-Za-z0-9_']`, no `.`, no ASCII capital, and only the first and last may be empty |
| Tokenizer.StripPeriodsAppend | assignment2/script.js:315 | removing periods distributes over concatenation |
| Tokenizer.StripPeriodsKeepsTokens | assignment2/script.js:315 | a word of token characters has no period to lose |
| Tokenizer.LowerAsciiAppend | assignment2/script.js:315 | lower-casing distributes over concatenation |
| Tokenizer.FirstToken | prototype4/script.js:121-124 | a text that opens with a word and then a delimiter other than `.` has the lower-cased word as its first token |
| Layout.Height | assignment2/script.js:330 | the height is 20·i/len, and it lies in [0, 20) for every index i < len |
| Layout.HeightMonotone | assignment2/script.js:329-330 | a larger index never gets a lower height |
| Layout.OccurrencesBelow | assignment2/script.js:325-328 | no more occurrences than indices scanned |
| Layout.Occurrences | assignment2/script.js:325-328 | exactly the indices whose token equals the term, each once, in strictly increasing order |
| Layout.OccurrencesBelowCharacterized | assignment2/script.js:325-328 | exactly the indices below the bound whose token equals the term, in strictly increasing order |
| Layout.Batch | assignment2/script.js:333-336 | the inner loop makes `count` calls, the a-th with counter a and the batch's height |
| Layout.BatchAt | assignment2/script.js:328-337 | `n` calls at index i when the token matches, none otherwise |
| Layout.PlacementsBelow | assignment2/script.js:325-338 | the calls made while the outer counter runs below a bound all carry the term and an index below that bound |
| Layout.Placements | assignment2/script.js:325-338 | a call description is in the list exactly when its index's token equals the term, its counter is below n and its height is that index's height |
| Layout.PlacementsBelowLength | assignment2/script.js:325-338 | after the indices below a bound, the number of calls is (matches so far) × n |
| Layout.PlacementsBelowAreCalls | assignment2/script.js:325-337 | every call is for a matching index, with counter < n and that index's height |
| Layout.PlacementsBelowSorted | assignment2/script.js:325-337 | calls come ordered by index, then by inner counter |
| Layout.PlacementsBelowComplete | assignment2/script.js:325-337 | every (matching index, counter < n) pair is called |
| Layout.CallCountLaw | assignment2/script.js:325-337 | drawCube is called exactly n times for each matching index and never for any other; total = matches × n |
| Layout.PlacementsInOrder | assignment2/script.js:325-337 | the calls come strictly ordered by index and then by inner counter, so each (matching index, counter) pair is called exactly once |
| Layout.HeightsAscend | assignment2/script.js:329-330 | heights never decrease along the calls and lie in [0, 20) |
| Layout.HeightIgnoresTerm | assignment2/script.js:330 | two scans of the same tokens give the same height to the same index, whatever the terms and counts |
| Layout.FirstMatchFirstDrawn | assignment2/script.js:325-335 | when token 0 matches, the first call is index 0, height 0, counter 0 |
| Layout.NoMatchNoOccurrences | assignment2/script.js:328 | with no equal token there are no occurrences |
| Layout.UppercaseTermNeverMatches | prototype4/script.js:121-134 | a term with an ASCII capital matches no token of any text, so no call is made |
| SceneGraph.Group.constructor | assignment2/script.js:159-164 | a new group has no children |
| SceneGraph.Group.Add | assignment2/script.js:146 | `add` appends exactly the given mesh |
| SceneGraph.Rng.constructor | assignment2/script.js:117 | a new generator has used no draws |
| SceneGraph.Rng.Next | assignment2/script.js:117-118 | each `Math.random` call returns the next draw of the stream, in [0, 1), and advances the counter by one |
| SceneGraph.Jitter | assignment2/script.js:117-118 | `(r - 0.5) * spread` lies in [-spread/2, spread/2) for r in [0, 1) |
| SceneGraph.ScaledDrawBounds | assignment2/script.js:117-118 | a draw in [0, 1) scaled by s > 0 lies in [0, s) |
| SceneGraph.Angle | assignment2/script.js:137-139 | `r * 2 * PI` is an angle in [0, 2π) for r in [0, 1) |
| Assignment2.GeometryFor | assignment2/script.js:82-89 | 'lightning' gets a torus knot, 'quest' a torus, and every other term a sphere, each if and only if |
| Assignment2.MaterialFor | assignment2/script.js:91-111 | the material has the term's colour and glows exactly when the term is emissive |
| Assignment2.DrawsPerCube | assignment2/script.js:117-139 | one drawCube takes 5 draws exactly when randomized, and 2 exactly when not |
| Assignment2.Draws | assignment2/script.js:333-336 | `calls` drawCube calls take `calls` times the draws of one call |
| Assignment2.CubeMesh | assignment2/script.js:79-147 | x and z lie within half the diameter of the centre when the diameter is positive; the y and z rotations are angles in [0, 2π) when randomized and 0 otherwise |
| Assignment2.Render | assignment2/script.js:325-337 | one mesh per call, the k-th built from the draws after those of the k calls before it |
| Assignment2.Glow | assignment2/script.js:103 | `count` calls push `count` glowing materials of the term's colour when emissive, none otherwise |
| Assignment2.CubeMeshPlacement | assignment2/script.js:79-147 | geometry follows the term; material follows the flag; y = height − 10; x and z lie in [−d/2, d/2); scale is `scale`, or height·0.05 when dynamic; rotation.x ends at π/2; the y and z rotations are angles when randomized and 0 otherwise |
| Assignment2.ScanMeshes | assignment2/script.js:322-339 | one scan (each mesh built as drawCube at lines 79-147 builds it) adds matches × nCubes meshes of the term's geometry and material, with y in [−10, 10) never decreasing and x, z inside the diameter |
| Assignment2.EmptyTextScan | assignment2/script.js:167 | the initial empty text tokenizes to `[""]`; a non-empty term then draws nothing, and the empty term draws nCubes meshes |
| Assignment2.RenderAppend | assignment2/script.js:117-146 | drawing two lists of calls one after the other gives the meshes of their concatenation, the second list starting at the draws the first left |
| Assignment2.DrawnAppend | assignment2/script.js:322-339 | drawing calls `ps` and then calls `qs` leaves the group, the draw counter and the glowing list as drawing `ps + qs` does |
| Assignment2.DrawnOne | assignment2/script.js:79-147 | one drawCube call is the drawing of that single call |
| Assignment2.ScanStep | assignment2/script.js:333-336 | one more drawCube call extends the drawn state by exactly the next call's mesh and draws |
| Assignment2.ScanIndex | assignment2/script.js:325-338 | one turn of the outer loop turns the drawn calls for indices below i into those below i + 1: a batch when token i matches, nothing otherwise |
| Assignment2.Sketch.constructor | assignment2/script.js:159-212 | the three default term records, each bound to its own new empty group; the texts are undefined and no material glows |
| Assignment2.Sketch.TokenizeSourceText | assignment2/script.js:312-319 | the parsed text and the token list are overwritten with the tokenizer's output |
| Assignment2.Sketch.SaveSourceText | assignment2/script.js:215-225 | saving tokenizes the text entered in the UI |
| Assignment2.Sketch.DrawCube | assignment2/script.js:79-147 | exactly one mesh, built from the next draws, is appended to the term's group; the counter moves on by 2, or by 5 when randomized; the material is pushed to the glowing list exactly when emissive |
| Assignment2.Sketch.DrawBatch | assignment2/script.js:333-336 | the inner loop draws exactly the batch of nCubes calls at one height, in counter order |
| Assignment2.Sketch.FindTerm | assignment2/script.js:322-339 | the group gains exactly the meshes of `Placements`, in order, and the glowing list grows by one per call when emissive; it throws, with nothing changed, before the first save |
| Assignment2.Sketch.SaveTerms | assignment2/script.js:227-238 | term1, term2 and term3 are scanned in that order, each into its own group, using consecutive draws; if the first scan throws, nothing changes |
| Prototype4.Cube | prototype4/script.js:77-99 | x and z lie in [−5, 5) and all three rotations in [0, 2π) when the draws lie in [0, 1) |
| Prototype4.Render | prototype4/script.js:128-145 | one box per call, the k-th built from the five draws after those of the k calls before it |
| Prototype4.CubePlacement | prototype4/script.js:77-99 | each box is a 0.5 box of the given colour; y = height − 10; x and z lie in [−5, 5); all three rotations are angles |
| Prototype4.ScanCubes | prototype4/script.js:128-145 | one scan adds 100 boxes per match, of that colour, with y in [−10, 10) never decreasing and x, z in [−5, 5) |
| Prototype4.UppercaseTermDrawsNothing | prototype4/script.js:121-134 | a term with an ASCII capital adds nothing to the scene |
| Prototype4.OpeningWordLowered | prototype4/script.js:112-121 | the first word of the text holds only token characters and lowers to "jinwoo" |
| Prototype4.OpensWithJinwoo | prototype4/script.js:112-136 | a text opening with "Jinwoo " has "jinwoo" as its first token, so the first "jinwoo" box is at height 0 |
| Prototype4.BuiltInTextOpensWithJinwoo | prototype4/script.js:112-148 | the built-in text's first token is "jinwoo", and its first box is at height 0 |
| Prototype4.DashAndCurlyQuotesAreDelimiters | prototype4/script.js:112-124 | the em dash and the curly quotes of the text are not token characters, so "army—thousands" splits into "army" and "thousands" |
| Prototype4.RenderSnoc | prototype4/script.js:98 | drawing one more call appends its box, built from the next five draws |
| Prototype4.ScanStep | prototype4/script.js:139-142 | one more drawCube call extends the drawn state by exactly the next box and five draws |
| Prototype4.Sketch.constructor | prototype4/script.js:40-115 | an empty scene, both texts undefined, and the built-in text in place |
| Prototype4.Sketch.TokenizeSourceText | prototype4/script.js:118-125 | the parsed text and the token list are overwritten with the tokenizer's output |
| Prototype4.Sketch.DrawCube | prototype4/script.js:77-99 | exactly one box, built from the next five draws, is appended to the scene |
| Prototype4.Sketch.FindTerm | prototype4/script.js:128-145 | the scene gains exactly the boxes of `Placements` with count 100, in order; before tokenizing it throws with nothing changed |
| Prototype4.Sketch.RunScript | prototype4/script.js:147-151 | tokenize, then "jinwoo"/purple, "army"/black, "igris"/red, "beru"/blue, their boxes in that order in the scene, using consecutive draws |
| Examples.TwoWords | assignment2/script.js:315-318 | two words of token characters joined by a space and followed only by periods tokenize to the two lower-cased words |
| Examples.HelloWorld | assignment2/script.js:315-318 | "Hello World." tokenizes to `["hello", "world"]` |
| Examples.StripPeriodsNoPeriod | assignment2/script.js:315 | a text without a period is unchanged by the period strip |
| Examples.LowerAsciiNoUpper | assignment2/script.js:315 | a text without an ASCII capital is unchanged by lower-casing |
| Examples.SpacedWordsUnchanged | assignment2/script.js:315 | lower-case words joined by single spaces are unchanged by the period strip and the lower-casing |
| Examples.SpacedWordsSplit | assignment2/script.js:315-318 | non-empty lower-case words joined by single spaces tokenize back to exactly those words |
| Examples.ArmyText | assignment2/script.js:315-318 | "army army shadow army" tokenizes to its four words |
| Examples.ArmyTokenScan | assignment2/script.js:325-337 | over those four words, "army" occurs at 0, 1 and 3, at heights 0, 5 and 15, and 100 per match gives 300 calls |
| Examples.ArmyScan | assignment2/script.js:315-337 | the text "army army shadow army" tokenizes to four words in which "army" occurs at 0, 1 and 3, at heights 0, 5 and 15, with 300 calls for 100 per match |

## Left out

- The camera, renderer, lights, OrbitControls and the `resize` listener are
  foreign rendering code. Meshes are records, and `new THREE.Color` is not
  modelled: a colour stays the string it was given.
- Prototype4.Sketch.constructor: the prototype's scene is modelled as the
  list of boxes the driver adds to it, starting empty. Its camera and light
  children (prototype4/script.js:50, 69) are not represented.
- `scene.add(groupN)` (assignment2/script.js:159-164) is not modelled. The
  groups are kept as separate objects and are not attached to a scene.
- The lil-gui folders, their show/hide calls, the visibility toggles, the
  `preset = ui.save()` assignments, and the UI's editing of terms and
  colours are not modelled. Line 230 also stores `ui.save` without calling
  it. The term records are fields that such editing would overwrite.
- The animation loops, the clock, the turntable camera and the flickering of
  `emissiveIntensity` are time-driven rendering. `flickeringCubes` holds
  materials as values, so the loop's later mutation of those shared objects
  is out of scope.
- The unused `emissiveIntensity: 100` field of `term2` (assignment2/script.js:194)
  is not part of `TermParams`; drawCube never reads it.
- The shared `cubeGeometry` object of prototype4 is a value in each box, so
  that sharing is not represented.
- The values of `Math.random` are an unknown stream of draws in [0, 1). The
  discarded rotation.x draw of a randomized assignment2 call is still
  counted, because it advances the stream.
- Tokenizer.LowerAscii: only ASCII A–Z are lowered. Full Unicode
  `toLowerCase` is not modelled. It can change a string's length, and it can
  also change the tokens: the Kelvin sign U+212A lowers to `k` and U+0130 to
  `i` followed by U+0307, so JavaScript turns such a delimiter into a word
  character where the model keeps it a delimiter. `Tokenizer.LowerChar`
  preserving token characters holds for the model's lowering only.
- Tokenizer.SplitOnDelims: JavaScript strings are UTF-16. A character outside
  the Basic Multilingual Plane is one character here but two code units
  there. Both code units are delimiters, so the tokens are the same.
- Layout.Height: computed over exact reals. IEEE-754 rounding of
  `(100 / len) * i * 0.2` is not modelled.
- Assignment2.TermParams: `nCubes` is a natural number. A fractional or
  negative value from outside the UI is not modelled.
- Assignment2.CubeMeshPlacement: the x/z bound is stated for a positive
  diameter only, which the three default terms have (5 and 10); the other
  conclusions hold for any diameter.
- Prototype4.BuiltInTextOpensWithJinwoo: only the first token of the
  392-character built-in text is proved, with
  `Prototype4.DashAndCurlyQuotesAreDelimiters` for the characters that split
  its words. That "army" matches at exactly two indices of the whole text
  (200 boxes) is not proved: the verifier does not evaluate the tokenizer
  over a literal that long. For any text, `Layout.CallCountLaw` gives the
  box count from the matches.
