# Morphing binary particles and the admin helpers, in Dafny

This project models the animated hero of the REAL AI website: the
`MorphingBinary` engine of js/main.js. Four hundred particles, each showing a
'0' or a '1', first hold a grid. They then morph through a silhouette, a
kidney and a spiral galaxy, and end on the words "REAL" / "AI", where they
stay for good. The engine is a three-phase state machine (holding,
scattering, forming) driven by the clock. While it holds the grid, random
glyphs flip between '0' and '1' and each one's colour follows. The project
also models three small helpers of js/admin.js:
- the file-name normaliser `sanitizeFilename`;
- the upload state of `ImageUploader`;
- the access-token flag of `GitHubAdmin`.

Modules:

- `Geometry` (geometry.dfy) models the point generators of `getShapePoints`:
  - the square grid, exactly;
  - the two-line text shape, built from the 5x7 letter bitmaps, exactly;
  - the trigonometric and random shapes, by their length, with every
    coordinate drawn from a `Sampler` parameter.

  Each generator is a method with the source's `push` loops, proved equal
  to a specification function. The lemmas about those functions give the
  count, the bounds, distinctness, the 94-pixel text pool and the cyclic
  assignment.
- `Animation` (animation.dfy) holds the particle record and the engine
  state as values. `Step` gives the effect of one `update()` call at time
  `now`, and there is one function per helper (`startScattering`,
  `startForming`, `easeInOutCubic`, ...).
- `Transitions` (transitions.dfy) proves what the state machine promises:
  - the invariant `Inv` is kept;
  - glyph and colour stay coupled;
  - the shape index only ever advances by one;
  - the end of every phase does what the code says;
  - progress is clamped;
  - the text shape is final;
  - the easing curve's shape.
- `Morphing` (morphing.dfy) is the class `MorphingBinary`. Its fields and
  its fixed `array` of particles are updated in place, method by method,
  and each method is proved to change `Model()` exactly as the matching
  `Animation` function says.
- `Filename` (filename.dfy) covers `sanitizeFilename`:
  - lower-casing;
  - turning each whitespace run into one `_`;
  - dropping every character outside `[a-z0-9_.-]`.
- `Admin` (admin.dfy) holds the classes `GitHubAdmin` (the token) and
  `ImageUploader` (file, payload and name), with their setters and readers.

Time is an explicit `now: nat` argument in place of `Date.now()`. Every
random draw is a parameter:
- the indices flipped in a frame (`Draws.flips`);
- the scatter displacement of each particle (`Draws.offset`);
- the coordinates of the trigonometric shapes (`Draws.sample`);
- the text jitter (`Draws.jitter`, values in [0, 1) as `Math.random()`
  gives);
- the initial glyph of each particle (`coin`) and the draw r in [0, 1)
  behind its font size 10 + 3r (`sizeDraw`).

Coordinates are `real`.

## Model

| member | source | states |
|---|---|---|
| Geometry.CeilSqrt | js/main.js:93 | the column count is the least c with count <= c*c, which is `Math.ceil(Math.sqrt(count))` computed exactly over the integers |
| Geometry.GridShape | js/main.js:92-104 | the grid loop pushes exactly the points of `GridPoints`: point i sits in column i % cols and row i / cols, offset by half a spacing |
| Geometry.GridPoint | js/main.js:97-102 | point i of the lattice, at column i % cols and row i / cols; its bounds and injectivity are stated by `GridPointWithin` and `GridPointInjective`, and the whole grid's by `GridWithinBounds` and `GridPointsDistinct` |
| Geometry.GridPoints | js/main.js:92-104 | the grid has exactly `count` points |
| Geometry.RowFits | js/main.js:97-98 | with count <= cols*cols, every row index i / cols is less than cols |
| Geometry.GridWithinBounds | js/main.js:92-104 | for a non-negative scale, every grid point lies in the square of half-side `scale` around the centre |
| Geometry.GridPointsDistinct | js/main.js:92-104 | for a positive scale, two different indices give two different grid points |
| Geometry.LetterPatterns | js/main.js:406-454 | the bitmap table has exactly the letters R, E, A, L and I |
| Geometry.CollectRow | js/main.js:339-346 | the column loop appends exactly the "on" cells of one bitmap row, in order |
| Geometry.CollectGlyph | js/main.js:338-347 | the row loop appends exactly the on-pixels of one letter, row by row |
| Geometry.CollectLine | js/main.js:333-349 | the letter loop appends the on-pixels of every letter of a line, each letter 6 units to the right of the previous one |
| Geometry.PoolOfLines | js/main.js:333-370 | the top line "REAL" followed by the bottom line "AI" is exactly the pixel pool `TextPool` |
| Geometry.TextPool | js/main.js:327-370 | the on-pixels of "REAL" centred on the top line, then those of "AI" on the bottom line; its size, 94, is stated by `TextPoolSize` and its construction by `PoolOfLines` |
| Geometry.RowPixelsCount | js/main.js:339-346 | a bitmap row contributes as many pixels as it has non-zero cells |
| Geometry.GlyphPixelsCount | js/main.js:338-347 | a letter contributes the sum of its rows' non-zero cells |
| Geometry.LinePixelsCount | js/main.js:333-349 | a line contributes the sum of its letters' non-zero cells |
| Geometry.PatternRCells | js/main.js:408-416 | the bitmap of R has 18 on-cells |
| Geometry.PatternECells | js/main.js:417-425 | the bitmap of E has 18 on-cells |
| Geometry.PatternACells | js/main.js:426-434 | the bitmap of A has 16 on-cells |
| Geometry.PatternLCells | js/main.js:435-443 | the bitmap of L has 11 on-cells |
| Geometry.PatternICells | js/main.js:444-452 | the bitmap of I has 15 on-cells |
| Geometry.TopLineCells | js/main.js:333-349 | "REAL" lights 63 pixels |
| Geometry.BottomLineCells | js/main.js:352-370 | "AI" lights 31 pixels |
| Geometry.TextPoolSize | js/main.js:311-370 | the text pool holds 94 pixels, fewer than the 400 particles, so the pool is reused cyclically |
| Geometry.Distribute | js/main.js:374-385 | with a non-empty pool the output has exactly `count` points and point i comes from pool entry i mod (pool length); with an empty pool nothing is pushed |
| Geometry.DistributeShape | js/main.js:374-385 | the distribution loop pushes exactly the points of `Distribute` |
| Geometry.DistributeNear | js/main.js:374-385 | each distributed point lies within half the jitter amplitude (0.15 * textScale) of its scaled pool pixel on each axis |
| Geometry.TextPointNearPool | js/main.js:311-386 | every point of the text shape is within 0.15 * textScale of pixel i % 94 of the "REAL"/"AI" pool, with textScale = 0.045 * scale |
| Geometry.TextShape | js/main.js:311-386 | the text case builds the pool line by line and then distributes it: its result is `TextPoints` |
| Geometry.TextPoints | js/main.js:311-386 | the text shape always has exactly `count` points |
| Geometry.ArmCount | js/main.js:271-272 | the arm share is floor(0.7 * count) and never exceeds count, so core plus arm points sum to count |
| Geometry.GalaxyShape | js/main.js:268-309 | the core loop and the arm loop together push exactly `count` sampled points |
| Geometry.SampledShape | js/main.js:106-266 | the silhouette and kidney loops push exactly `count` sampled points |
| Geometry.SampledPoints | js/main.js:389-399 | a sampled shape has exactly `count` points |
| Geometry.GetShapePoints | js/main.js:87-403 | the switch over shape names returns exactly `ShapePoints` |
| Geometry.ShapePoints | js/main.js:87-403 | every named shape has exactly `count` points |
| Animation.ColorFor | js/main.js:83-85 | the colour is sky blue exactly for '1' and dark blue exactly otherwise |
| Animation.Flip | js/main.js:519-522 | a flip turns '0' into '1' and '1' into '0', recouples the colour and changes nothing else |
| Animation.FlipAllStep | js/main.js:518-523 | one more iteration of the flip loop flips one more chosen particle on top of the previous ones |
| Animation.FlipAll | js/main.js:518-523 | flipping the drawn indices one after another keeps the particle count; what it does to each particle is stated by `FlipAllUntouched` and `FlipAllParity` |
| Animation.Flipped | js/main.js:515-526 | on the grid shape, once more than 30 ms have passed since the last batch, the batch fires: the particles become `FlipAll` of the drawn indices and the last-flip time becomes now; otherwise the state is untouched; nothing but the particles and the last-flip time changes, only glyphs and colours change and coupling is kept |
| Animation.FlipAllKeeps | js/main.js:515-525 | any batch of flips keeps every glyph coupled to its colour and touches only glyphs and colours |
| Animation.FlipTwice | js/main.js:519-522 | flipping a coupled particle twice gives it back |
| Animation.FlipAllUntouched | js/main.js:518-523 | a particle whose index was not drawn in the batch is left exactly as it was |
| Animation.FlipAllParity | js/main.js:518-523 | a coupled particle ends flipped exactly when its index was drawn an odd number of times, and unchanged when drawn an even number of times |
| Animation.NewParticle | js/main.js:63-78 | a new particle stands still (position = start = target), its colour matches its glyph, and its glyph is '1' exactly when the coin says so |
| Animation.NewParticles | js/main.js:59-80 | `createParticles` makes exactly 400 particles |
| Animation.PinAll | js/main.js:542-545 | pinning puts every particle on its target and moves nothing but x and y |
| Animation.LerpAll | js/main.js:553-556 | interpolation keeps the particle count and changes only x and y |
| Animation.ScatterAll | js/main.js:471-483 | every particle restarts from where it stands, and its new target is its start plus its own offset |
| Animation.FormAll | js/main.js:492-502 | every particle restarts from where it stands towards point i of the new shape, or towards the centre when the shape has no point i |
| Animation.ShapeAt | js/main.js:493-494 | a shape index in range yields 400 points; a missing shape yields none |
| Animation.StartScattering | js/main.js:471-490 | the state becomes scattering at time `now` with progress 0, the shape unchanged and the first-grid flag cleared; every particle restarts from where it stands with target = start + its own offset |
| Animation.StartForming | js/main.js:492-506 | the state becomes forming at time `now` with progress 0; every particle restarts from where it stands and aims at point i of the new shape, or at the centre when that point is missing |
| Animation.ShouldScatter | js/main.js:457-464 | scattering comes before the next shape exactly when the shape is neither 0 nor 3; used by `EndHold` and `HoldingTransition` |
| Animation.IsAtFinalShape | js/main.js:467-469 | the final shape is exactly shape 4, the text; `FinalShapeIsFrozen` states that it is never left |
| Animation.EndHold | js/main.js:530-539 | at the end of a hold, shapes 1 and 2 scatter with the index unchanged; shapes 0 and 3 go straight to forming shape + 1 and leave the first grid; every particle is re-targeted from where it stands |
| Animation.HoldingStep | js/main.js:513-545 | a holding frame keeps the particle count |
| Animation.ScatteringStep | js/main.js:547-562 | a scattering frame keeps the particle count |
| Animation.ScatterMotion | js/main.js:548-556 | the motion of a scattering frame: progress at most 1 (and at least 0 when the clock has not gone back), phase and shape unchanged, only positions move |
| Animation.FormingStep | js/main.js:564-584 | a forming frame keeps the particle count |
| Animation.Step | js/main.js:508-585 | an update keeps the particle count |
| Animation.Resized | js/main.js:50-57 | resizing leaves the particles, the phase and the shape untouched |
| Animation.Initial | js/main.js:11-49 | the engine starts holding shape 0 at time `now` |
| Animation.Min | js/main.js:548 | `Math.min` is a lower bound of both arguments and equals one of them |
| Transitions.InitialState | js/main.js:59-80 | after init the invariant holds; particle i stands still on grid point i; its glyph is '1' exactly when its coin says so |
| Transitions.MovesKeepCoupling | js/main.js:83-85 | moving or re-targeting particles never breaks the glyph/colour coupling |
| Transitions.StepKeepsInv | js/main.js:508-585 | every update keeps the invariant: 400 particles, shape index in 0..4, progress at most 1, glyphs coupled to colours, scattering only from shapes 1 and 2 |
| Transitions.HoldingKeepsInv | js/main.js:513-545 | the holding branch keeps the invariant |
| Transitions.ScatteringKeepsInv | js/main.js:547-562 | the scattering branch keeps the invariant |
| Transitions.FormingKeepsInv | js/main.js:564-584 | the forming branch keeps the invariant |
| Transitions.ShapeAdvancesByOne | js/main.js:528-562 | in a reachable state an update either keeps the shape index or advances it by exactly one and starts forming; the cyclic wrap never fires |
| Transitions.HoldingTransition | js/main.js:528-545 | after the hold time and away from the text shape, shapes 1-2 start scattering and shapes 0 and 3 start forming the next shape; otherwise the machine stays holding; either way the particles end pinned to their targets |
| Transitions.HoldingFormsNext | js/main.js:534-538 | going straight to the next shape makes every particle start from its position and aim at the matching point of the next shape |
| Transitions.HoldEndsStep | js/main.js:528-545 | an ending hold frame is the flips, then the end of hold, then the pin |
| Transitions.EndHoldForms | js/main.js:535-537 | the direct transition re-targets the particles at the next shape's points |
| Transitions.ScatterEnds | js/main.js:558-562 | a finished scatter starts forming the next shape at time `now`, each particle starting from its scatter target |
| Transitions.ScatterEndsStep | js/main.js:547-562 | a finished scatter is a full interpolation followed by `startForming` of the next shape |
| Transitions.FullProgress | js/main.js:548 | once the elapsed time exceeds the duration, progress is exactly 1 |
| Transitions.FormingEnds | js/main.js:575-583 | a finished form returns to holding at time `now` with progress 1, every particle exactly on its unchanged target |
| Transitions.ProgressClamped | js/main.js:547-566 | while scattering or forming, progress stays within [0, 1], once the clock has not gone back since the phase began |
| Transitions.Run | js/main.js:508-585 | any run of update frames keeps the particle count |
| Transitions.FinalFrame | js/main.js:529-545 | holding the text shape, a frame only pins the particles |
| Transitions.FinalShapeIsFrozen | js/main.js:467-469 | once holding the text shape, any non-empty run of further frames leaves the state exactly as after one pin: the machine never leaves holding |
| Transitions.GlyphsFlipOnlyOnGrid | js/main.js:515 | glyphs change only while holding the grid |
| Transitions.GridToSilhouette | js/main.js:513-584 | from the initial grid, a frame after the hold starts forming shape 1 from the grid points; a frame after the form time leaves every particle exactly on its silhouette point |
| Transitions.PinAllIdempotent | js/main.js:542-545 | pinning twice is pinning once |
| Transitions.LerpAllEnds | js/main.js:553-556 | interpolation at 0 gives the start positions and at 1 the targets |
| Animation.EaseInOutCubic | js/main.js:587-589 | the cubic ease-in-out curve; `EaseEnds`, `EaseBounded`, `EaseMonotone` and `EaseSymmetric` state its end points, range, monotonicity and symmetry |
| Transitions.EaseEnds | js/main.js:587-589 | the easing maps 0 to 0 and 1 to 1 |
| Transitions.EaseSymmetric | js/main.js:587-589 | the easing is point-symmetric about (0.5, 0.5) |
| Transitions.EaseMonotone | js/main.js:587-589 | the easing is non-decreasing on [0, 1] |
| Transitions.EaseBounded | js/main.js:587-589 | the easing maps [0, 1] into [0, 1] |
| Morphing.MorphingBinary.constructor | js/main.js:11-49 | the new engine equals `Initial` and satisfies the invariant |
| Morphing.MorphingBinary.Resize | js/main.js:50-57 | only the centre and the scale change |
| Morphing.MorphingBinary.CreateParticles | js/main.js:59-80 | the particle array is replaced by a fresh one holding `NewParticles` of the grid |
| Morphing.GridParticles | js/main.js:59-80 | the creation loop fills a fresh array of 400 particles on the grid points |
| Morphing.MorphingBinary.UpdateParticleColor | js/main.js:83-85 | only particle k's colour changes, to the colour of its glyph |
| Morphing.MorphingBinary.FlipOne | js/main.js:519-522 | only particle k changes, by one `Flip` |
| Morphing.MorphingBinary.FlipBatch | js/main.js:518-523 | the array ends as `FlipAll` of the chosen indices |
| Morphing.MorphingBinary.PinToTargets | js/main.js:542-545 | the array ends as `PinAll` of its old contents |
| Morphing.MorphingBinary.Interpolate | js/main.js:553-556 | the array ends as `LerpAll` of its old contents |
| Morphing.MorphingBinary.ScatterParticles | js/main.js:473-483 | the array ends as `ScatterAll` of its old contents |
| Morphing.MorphingBinary.FormParticles | js/main.js:495-502 | the array ends as `FormAll` of its old contents |
| Morphing.MorphingBinary.StartScattering | js/main.js:471-490 | the engine ends as `Animation.StartScattering` of its old state |
| Morphing.MorphingBinary.StartForming | js/main.js:492-506 | the engine ends as `Animation.StartForming` of its old state |
| Morphing.MorphingBinary.FlipIfDue | js/main.js:515-526 | the engine ends as `Flipped` of its old state |
| Morphing.MorphingBinary.EndHold | js/main.js:530-539 | the engine ends as `Animation.EndHold` of its old state |
| Morphing.MorphingBinary.UpdateHolding | js/main.js:513-545 | the engine ends as `HoldingStep` of its old state |
| Morphing.MorphingBinary.ScatterMove | js/main.js:548-556 | the engine ends as `ScatterMotion` of its old state |
| Morphing.MorphingBinary.FormNext | js/main.js:559-562 | the next shape, cyclically, starts forming |
| Morphing.MorphingBinary.UpdateScattering | js/main.js:547-562 | the engine ends as `ScatteringStep` of its old state |
| Morphing.MorphingBinary.UpdateForming | js/main.js:564-584 | the engine ends as `FormingStep` of its old state |
| Morphing.MorphingBinary.Update | js/main.js:508-585 | the engine ends as `Step` of its old state, and the invariant is kept |
| Filename.LowerCharFacts | js/admin.js:349 | lower-casing a character leaves no upper-case letter and keeps (non-)whitespace; an ASCII character maps to one ASCII character; whitespace and allowed characters map to themselves |
| Filename.LowerChar | js/admin.js:349 | `toLowerCase` of one character: A-Z to a-z, U+0130 to "i" plus a combining dot, the Kelvin sign to "k", anything else unchanged; `LowerCharFacts` states its properties |
| Filename.LowerCase | js/admin.js:349 | `toLowerCase` of a string, character by character; `LowerCaseConcat`, `LowerCaseAscii`, `LowerCaseAllowed` and `LowerCaseSpaces` state its properties |
| Filename.IsSpace | js/admin.js:350 | the code points of the JavaScript class `\s`: the white-space and line-terminator characters of ECMAScript |
| Filename.Sanitize | js/admin.js:346-352 | `sanitizeFilename`: every character of the result is in `[a-z0-9_.-]`; `SanitizeAllowed`, `SanitizeIdempotent`, `SanitizeRun` and `SanitizeShrinksAscii` state the rest |
| Filename.DropSpaces | js/admin.js:350 | dropping a run never lengthens the string |
| Filename.Collapse | js/admin.js:350 | collapsing whitespace runs never lengthens the string |
| Filename.Keep | js/admin.js:351 | filtering never lengthens the string |
| Filename.KeepFilters | js/admin.js:351 | the filter leaves only `[a-z0-9_.-]` and leaves an allowed string unchanged |
| Filename.KeepInventsNothing | js/admin.js:351 | the filter keeps a sub-multiset of the input: it adds no character |
| Filename.SanitizeAllowed | js/admin.js:346-352 | every character of a sanitized name is in `[a-z0-9_.-]`, none is upper-case and none is whitespace |
| Filename.SanitizeIdempotent | js/admin.js:346-352 | sanitizing twice is sanitizing once |
| Filename.SanitizeAllowedName | js/admin.js:346-352 | a name already within `[a-z0-9_.-]` is unchanged |
| Filename.SanitizeShrinksAscii | js/admin.js:346-352 | for ASCII input the sanitized name is no longer than the input |
| Filename.SanitizeRun | js/admin.js:349-351 | a maximal whitespace run between two parts becomes exactly one `_` between the sanitized parts |
| Filename.LowerCaseAscii | js/admin.js:349 | lower-casing ASCII keeps the length and stays ASCII |
| Filename.LowerCaseAllowed | js/admin.js:349 | lower-casing leaves an allowed string unchanged |
| Filename.LowerCaseConcat | js/admin.js:349 | lower-casing distributes over concatenation |
| Filename.LowerCaseSpaces | js/admin.js:349 | lower-casing leaves whitespace unchanged |
| Filename.LowerCaseLast | js/admin.js:349 | lower-casing keeps a non-space last character non-space |
| Filename.LowerCaseFirst | js/admin.js:349 | lower-casing keeps a non-space first character non-space |
| Filename.LowerRun | js/admin.js:349 | lower-casing passes a whitespace run through unchanged |
| Filename.CollapseNoSpace | js/admin.js:350 | a string without whitespace is unchanged |
| Filename.CollapseConcat | js/admin.js:350 | collapsing splits at a boundary that follows a non-space |
| Filename.DropSpacesConcat | js/admin.js:350 | dropping leading spaces splits at a boundary that follows a non-space |
| Filename.SpacesThen | js/admin.js:350 | dropping a whitespace run reaches the next non-space |
| Filename.CollapseRun | js/admin.js:350 | a whitespace run followed by a non-space becomes one `_` |
| Filename.CollapseAround | js/admin.js:350 | a whitespace run between two non-space boundaries becomes one `_` |
| Filename.KeepConcat | js/admin.js:351 | filtering distributes over concatenation |
| Filename.KeepAround | js/admin.js:351 | the filter keeps the `_` between two parts |
| Admin.GitHubAdmin.constructor | js/admin.js:7-12 | the token is the stored one, or empty and unauthenticated when none is stored |
| Admin.GitHubAdmin.IsAuthenticated | js/admin.js:14-16 | authenticated exactly when the token is non-empty |
| Admin.GitHubAdmin.SetToken | js/admin.js:18-21 | the token becomes t, and the admin is authenticated exactly when t is non-empty |
| Admin.GitHubAdmin.ClearToken | js/admin.js:23-26 | the token becomes empty and the admin is no longer authenticated |
| Admin.ImageUploader.constructor | js/admin.js:260-276 | file, payload and name start null, so there is no upload data |
| Admin.ImageUploader.GetUploadData | js/admin.js:354-360 | nothing unless both the payload and the name are non-empty; otherwise exactly those two values |
| Admin.ImageUploader.Clear | js/admin.js:362-368 | file, payload and name become null, so there is no upload data |

## Left out

- Drawing (`draw`), the `requestAnimationFrame` loop (`animate`), and the
  window `resize`, `DOMContentLoaded`, navigation and scroll handlers are
  not modelled. They are canvas and DOM plumbing.
- Velocities `vx` and `vy` are set to 0 and never read, so they are not
  modelled.
- The canvas element, the 2-D context and reading the container size are
  not modelled; `Resize` takes the width and height as arguments.
- Floating point: coordinates, progress and easing are exact reals. Rounding
  in `Math.sqrt`, division, multiplication and the cubic is not modelled.
  - `Math.ceil(Math.sqrt(count))` is modelled as the exact integer ceiling
    square root.
  - The unused `rows` of the grid case is dropped.
- Geometry.ArmCount: floors the exact product 0.7 * count, while the
  source floors the double `count * 0.7`. For some counts the double rounds
  below an integer: 90 * 0.7 is 62.99999999999999, so the source takes 62
  arm points where the model takes 63 (likewise 170, 180, 330 and others).
  For the engine's 400 particles both give 280, and in both core plus arm
  points sum to `count`.
- Exact coordinates of the silhouette, kidney, galaxy and random shapes are
  not modelled: each point comes from a `Sampler` parameter. The same goes
  for the trigonometric scatter displacement of `startScattering`, which is
  a per-particle offset parameter. The model does not state its bound of 30.
- The clock: `Date.now()` is the frame's `now`. The source reads the clock
  again inside `startScattering` and `startForming`. The model uses the
  frame's time throughout, which ignores the milliseconds that pass within
  one frame.
- Random draws are parameters. `Math.random() > 0.5` is a `coin`, and the
  draw r behind the particle size `10 + 3r` is a `sizeDraw` function. The flip loop's
  `Math.floor(Math.random() * length)` is a sequence of valid indices.
- Flip frames: `FlipBatch` requires exactly `flipsPerFrame` (8) indices,
  each within the array. The source always draws such indices.
- `GitHubAdmin` storage:
  - `localStorage` is not modelled. The constructor takes the stored token
    (or none) as a parameter, and the setters do not persist.
  - `repo`, `owner` and `baseRef` are constants the modelled members never
    read.
  - The REST calls (`validateToken` through `createPullRequest`) and the
    base64/UTF-8 conversions are network and foreign-library code, and are
    not modelled.
- `ImageUploader` DOM and file reading:
  - Its DOM elements, `options`, `handleFileSelect`, `FileReader`,
    `resizeImage` and `updatePreview` are browser callbacks and canvas work,
    and are not modelled.
  - A `File` is kept by its name only.
  - `Clear` does not model resetting the input element or the preview
    HTML.
- `toLowerCase`:
  - Modelled exactly on ASCII. Beyond it, the model covers the two
    characters that lower-case to ASCII letters: U+0130 (to "i" plus a
    combining dot) and the Kelvin sign U+212A (to "k"). Every other
    non-ASCII character is left as it is.
  - The sanitized result is the same either way, since the filter then
    drops every non-ASCII character.
  - The whitespace class of `\s` is modelled by its full JavaScript list of
    code points.
- Resizing: as in the code, `resize` does not recompute particles or
  targets. Particles keep their old coordinates until the next
  `startForming`.
- Empty text pool: the text distribution then pushes nothing, so the shape
  has fewer than `count` points and `startForming` sends the remaining
  particles to the centre. With the fixed bitmaps the pool is never empty
  (`TextPoolSize`).
