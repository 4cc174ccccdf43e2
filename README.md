# OLL recogniser and PLL data helpers: a Dafny model

This project models the core of a Rubik's cube last-layer trainer.

On the OLL page the user marks the yellow stickers of the last layer. There are
8 top cells around the fixed centre, plus 12 side stickers: three each on Front,
Left, Right and Back. The page encodes the marked stickers as a 20-character
state code: an 8-character top code followed by a 12-character edge code.

The recogniser looks the state code up in a catalog of the 57 OLL cases. It
accepts a case when the case's reference codes, turned by the same number of
clockwise quarter turns (0, 90, 180 or 270 degrees), equal the observed codes.
The first case in catalog order that matches wins.

The PLL data generator has helpers for the data it writes out:

- pattern normalisation: it renames the colours of a side pattern by order of
  first appearance;
- move and algorithm inversion;
- formula sanitising.

The model has six modules:

- `OllRotation` (`oll_rotation.dfy`): the quarter-turn transforms of top, edge
  and state codes; the methods that list the four rotations; the angle-driven
  rotation. It proves that four turns give the identity. It also proves that
  the index tables of both transforms come from one geometric quarter turn of a
  5x5 frame around the top face.
- `OllCatalog` (`oll_catalog.dfy`): the 57-case catalog, the matcher
  `DetectOllCase` with its nested loops, and a reference definition
  `FirstMatch` that the matcher is proved against. It proves that what the
  matcher finds does not depend on how the observed cube is turned, and that
  any rotation of a catalogued case is recognised as that case
  or as one stored before it.
- `OllCatalogOrbits` (`oll_catalog_orbits.dfy`): the four orientations of
  each of the 57 cases, and the proof that no case stored before it has any
  of them. With the results of `OllCatalog` this gives: every rotation of
  every catalogued case is recognised as that very case, the two worked
  examples OLL33 and OLL22 included.
- `CubeInput` (`cube_state.dfy`): the input widget's flags as a class over two
  arrays. Clicks flip a flag; reset clears every flag but the centre. Reading
  the state code and loading a pair of patterns are proved to be inverse to
  each other.
- `PllNormalize` (`pll_normalize.dfy`): the single-pass normaliser with its
  colour-to-code map. It is proved equal to a closed-form definition, which is
  shown to keep equal positions equal, to use the contiguous codes 'A', 'B', …,
  to be idempotent, and to be unchanged by any one-to-one renaming of colours.
- `PllMoves` (`pll_moves.dfy`): Python's `strip`, `split` and `' '.join` over
  Python's whitespace set; move inversion, algorithm inversion and formula
  sanitising, with their round trips.

## Model

| member | source | states |
|---|---|---|
| OllRotation.Slice | script.js:175-176 | `substring(lo, hi)` on a code at least `hi` long is the slice `s[lo..hi]`; a shorter code is cut short and the result is never longer than `hi - lo` |
| OllRotation.RotateTopPattern | script.js:289-316 | building the rotated top code character by character, slot `k` taking old slot `map[k]`, gives the quarter-turned top code |
| OllRotation.RotateTopIsQuarterTurn | script.js:289-316 | every slot of the rotated top code holds the sticker that a clockwise quarter turn carries onto that slot's cell; the index map is a table of valid slots, no two of them equal, so it is a permutation of the 8 slots |
| OllRotation.RotateEdge | script.js:381-409 | the rotated edge code built from the three-sticker faces: Front from the old Left reversed, Left from the old Back, Right from the old Front, Back from the old Right reversed (its laws are the rows below) |
| OllRotation.RotateEdgeIsQuarterTurn | script.js:381-409 | every slot of the rotated edge code holds the sticker that the same clockwise quarter turn carries onto that slot's cell; no two slots take the same source slot, so the index map is a permutation of the 12 slots |
| OllRotation.RotateEdgeIsFaceRule | script.js:381-409 | the new Front is the old Left reversed, the new Left the old Back, the new Right the old Front, and the new Back the old Right reversed |
| OllRotation.RotateTopFourTimes | script.js:289-316 | four quarter turns of a top code give it back |
| OllRotation.RotateEdgeFourTimes | script.js:381-409 | four quarter turns of an edge code give it back |
| OllRotation.Rotate90 | script.js:366-378 | the rotated state code's first 8 characters are the rotated top code and its last 12 the rotated edge code |
| OllRotation.StateTurnsSplit | script.js:366-378 | turning a state code k times turns its top and edge parts k times each, independently |
| OllRotation.StateTurnsModFour | script.js:350-363 | only the number of quarter turns modulo four matters |
| OllRotation.AllTopRotations | script.js:275-286 | returns four top codes: the input, then each one the quarter turn of the one before, i.e. 0 to 3 turns |
| OllRotation.AllEdgeRotations | script.js:336-347 | returns four edge codes: the input, then each one the quarter turn of the one before, i.e. 0 to 3 turns |
| OllRotation.RotateState | script.js:350-363 | an angle that is not a multiple of 90 changes nothing; a non-negative multiple applies angle/90 quarter turns; a non-positive angle changes nothing; a multiple of 360 changes nothing |
| OllRotation.FullTurnsAreQuarterTurns | script.js:350-363 | a multiple of 360 degrees is a multiple of 90 degrees giving a multiple of four quarter turns |
| OllRotation.AllRotations | script.js:319-333 | returns the state code turned 0, 1, 2 and 3 times, in that order |
| OllRotation.Oll33Rotations | script.js:80-89 | OLL33's top and edge codes turn through the four expected orientations and come back after four turns; its four top codes are distinct |
| OllRotation.Oll22Rotations | script.js:98-107 | OLL22's top code is fixed by a quarter turn, and its edge code moves through the three expected orientations |
| OllCatalog.OllCasesLayout | script.js:183-241 | the catalog holds 57 cases, with OLL22 at index 21 and OLL33 at index 32 |
| OllCatalog.DetectOllCase | script.js:173-272 | returns the first case, in catalog order, that matches the codes cut from characters 0..8 and 8..20 at one shared rotation index; it returns nothing exactly when no case matches |
| OllCatalog.FirstMatchFromIsFirst | script.js:244-271 | the reference search gives the first matching case from index j on, and nothing exactly when none of those cases matches |
| OllCatalog.MatchesIgnoresTurn | script.js:244-268 | a case matches the quarter-turned observed codes exactly when it matches the observed codes |
| OllCatalog.FirstMatchIgnoresTurns | script.js:244-271 | the case found for the observed codes turned any number of times is the case found for the codes as they are |
| OllCatalog.RotatedCaseIsRecognised | script.js:244-271 | any rotation of a catalogued case's own codes is recognised, as that case or as one stored before it |
| OllCatalog.MatchesIffInTurns | script.js:244-268 | a case matches exactly when its reference codes are among the four rotations of the observed codes |
| OllCatalogOrbits.CaseRecognisedAsItself | script.js:183-271 | every catalogued case, turned any number of quarter turns, is recognised as that same case: no earlier case of the catalog has one of its orientations |
| OllCatalogOrbits.Oll33Recognised | script.js:451-454 | each of OLL33's four orientations is recognised as OLL33 |
| OllCatalogOrbits.Oll22Recognised | script.js:447-448 | each of OLL22's four orientations, including the 90 degree one, is recognised as OLL22 |
| OllCatalog.BlankNotInCatalog | script.js:183-241 | every catalogued case has at least one marked edge sticker |
| OllCatalog.BlankNotRecognised | script.js:244-271 | the blank state, with no sticker marked, is not recognised |
| CubeInput.EncodeDecode | script.js:489-512 | loading a binary 8-character top pattern and 12-character edge pattern and reading the state code back gives the two patterns |
| CubeInput.DecodeEncode | script.js:140-170 | reading a state code off flags whose centre is marked and loading it back gives the same flags |
| CubeInput.CubeState.constructor | script.js:13-25 | the initial flags: only the centre cell is marked |
| CubeInput.CubeState.ClickCell | script.js:28-38 | a click flips one top cell's flag; the centre has no handler and stays marked |
| CubeInput.CubeState.ClickEdge | script.js:41-48 | a click flips one edge flag and nothing else |
| CubeInput.CubeState.Reset | script.js:51-63 | every flag but the centre is cleared |
| CubeInput.CubeState.GetStateCode | script.js:140-170 | the code is the 8 non-centre top cells in row-major order, then the 12 edges, each written '1' or '0'; the flags are not changed |
| CubeInput.CubeState.SetFromPatterns | script.js:489-512 | after a reset, exactly the cells and edges whose pattern character is '1' are marked; for binary patterns of the right widths, reading back gives the patterns |
| CubeInput.CubeState.SetFromStateCode | script.js:477-486 | loads characters 0..8 as the top pattern and 8..20 as the edge pattern; for a binary 20-character code, reading back gives the code |
| PllNormalize.Normalize | build/generate_pll_data.py:39-48 | the single pass with its map equals the closed form: each character is written as 'A' plus the number of distinct characters first seen before it |
| PllNormalize.SameSymbols | build/generate_pll_data.py:39-48 | the output has the input's length, and two positions agree in the output exactly when they agree in the input |
| PllNormalize.StartsWithA | build/generate_pll_data.py:39-48 | a non-empty pattern's normal form starts with 'A' |
| PllNormalize.NewSymbolGetsNextCode | build/generate_pll_data.py:43-45 | a character seen for the first time gets 'A' plus the number of distinct characters before it |
| PllNormalize.CodesAreContiguous | build/generate_pll_data.py:39-48 | the codes used are exactly 'A', 'B', … one per distinct character of the input |
| PllNormalize.SamePatternSameNormal | build/generate_pll_data.py:39-48 | two patterns whose positions agree in the same places have the same normal form |
| PllNormalize.SameNormalSamePattern | build/generate_pll_data.py:39-48 | conversely, two patterns with the same normal form have equal symbols in the same places; with the row above, two patterns have the same normal form exactly when one is a renaming of the other |
| PllNormalize.NormalizeIdempotent | build/generate_pll_data.py:39-48 | normalising a normal form changes nothing |
| PllNormalize.RelabelInvariant | build/generate_pll_data.py:39-48 | renaming the colours one-to-one does not change the normal form |
| PllMoves.Strip | build/generate_pll_data.py:52 | the stripped move is no longer than the move and neither starts nor ends with whitespace |
| PllMoves.StripDropsEdgeSpace | build/generate_pll_data.py:52 | strip keeps a contiguous part that neither starts nor ends with whitespace, and drops only whitespace on both sides |
| PllMoves.StripNoSpace | build/generate_pll_data.py:52 | a move without whitespace is its own strip |
| PllMoves.InvertMove | build/generate_pll_data.py:51-59 | the inverse of a move is at most one character longer than the move |
| PllMoves.InvertMoveTwice | build/generate_pll_data.py:51-59 | inverting a move without whitespace twice gives it back exactly when it is not a prime following nothing, a '2' or another prime |
| PllMoves.InvertMoveTwiceTurns | build/generate_pll_data.py:51-59 | a plain turn, its prime and its half turn ("R", "R'", "R2") come back after two inversions |
| PllMoves.InvertMoveWord | build/generate_pll_data.py:51-59 | inverting a word other than a lone prime gives a non-empty word without whitespace |
| PllMoves.Split | build/generate_pll_data.py:63 | every token split off is non-empty and holds no whitespace |
| PllMoves.Join | build/generate_pll_data.py:64 | joining tokens that split could produce gives the empty string exactly when there are no tokens |
| PllMoves.SplitJoin | build/generate_pll_data.py:62-64 | splitting tokens joined by single spaces gives back the tokens |
| PllMoves.DropEmptyOfWords | build/generate_pll_data.py:63 | filtering out empty tokens changes nothing when split produced them |
| PllMoves.InvertAlgorithm | build/generate_pll_data.py:62-64 | splits the algorithm into moves, reverses them, inverts each and joins them with single spaces (its laws are the two rows below) |
| PllMoves.InvertAlgorithmTokens | build/generate_pll_data.py:62-64 | the inverse algorithm's tokens are the original tokens reversed, each inverted |
| PllMoves.InvertAlgorithmTwice | build/generate_pll_data.py:62-64 | inverting an algorithm of invertible moves twice gives its moves back, joined by single spaces |
| PllMoves.SanitizeFormula | build/generate_pll_data.py:88-89 | the sanitised formula holds no parenthesis, and every character in it comes from the raw formula |
| PllMoves.SanitizeKeepsOthers | build/generate_pll_data.py:88-89 | sanitising removes every parenthesis and keeps every other character, in order |
| PllMoves.SanitizeIdempotent | build/generate_pll_data.py:88-89 | sanitising a sanitised formula changes nothing |

## Left out

- The page itself is not modelled: the DOM, CSS classes, event wiring, console logging, the result panel, the mini-cube preview, `initPage` and `createTestButtons`. A click is modelled as a method call on `CubeState`.
- In `script.js`, a click sets a flag from the cell's CSS class after toggling it. The model flips the flag directly, which is the same as long as class and flag agree; they start equal and every handler updates both.
- Reset in `script.js` also hides the result section; that is display state and is left out.
- `extract_pattern`, `main` and the case list in `build/generate_pll_data.py` depend on the pycuber library and on JSON output; they are not part of this model.
- The other build scripts are not part of this model. The `rotate` function of `build/orientation_search.py` (lines 18-24) uses the same index table as `OllRotation.RotateEdge`.
- OllRotation.RotateTopPattern: takes only 8-character codes. On a shorter string JavaScript would write "undefined" into the result; that case is not modelled.
- OllRotation.RotateEdge and OllRotation.Rotate90 likewise take only 12- and 20-character codes.
- OllRotation.RotateState: the angle is an integer. The JavaScript function also accepts fractional angles, which the `% 90` test sends back unchanged.
- PllNormalize.Normalize: requires the pattern to have at most 0xD800 - 0x41 characters, so that every code handed out is a Unicode scalar value below the surrogate block. Python's `chr` would go on past that bound.
- The OLL formulas are carried through as opaque strings; nothing is proved about what they do to a cube.
