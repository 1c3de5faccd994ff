# mcgl-arts gallery: plural forms and small-image fit sizing

The gallery page has two small pieces of logic of its own. The rest is
rendering and layout glue. This project models both pieces and proves
their properties.

- **Plural forms** (`plural_forms.dfy`, module `PluralForms`). `declOfNum(number, titles)`
  picks the Russian word form that goes with a count ("1 арт", "2 арта", "5 артов").
  It uses the last two decimal digits and a six-entry lookup table. In the model,
  `PluralIndex` is the index the source computes and `DeclOfNum` is the lookup.
  Both are proved equal to `RussianPluralForm` (lemma `PluralIndexFollowsRussianRule`),
  the grammatical rule written directly on digits (last digit 1 but not 11; 2–4 but not 12–14; everything
  else). The model proves that the index is always 0, 1 or 2, gives the full case
  table in both directions, and proves that the result depends only on `n % 100`.
- **Fit sizing** (`viewer_fit.dfy`, module `ViewerFit`). `patchViewer` wraps the
  full-screen viewer's `initImage`. After the viewer has computed its default
  geometry, an image whose natural height is below `options.imageMinHeight` gets a
  new zoom ratio: the smallest of three values. These are the coverage-scaled
  width fit, the coverage-scaled height fit (the toolbar height is subtracted
  first) and the whole number `floor(imageMinHeight / naturalHeight)`. Ratio,
  width, height and the centred x/y are then written into the viewer's
  `imageData` record in place. `Viewer` and `ImageData` are classes. The callback
  body is the method `Viewer.ApplyFit`. Its new state is tied to the pure
  specification `AfterInit` / `FitPlacement`, and the lemmas prove the geometric
  properties of that specification.

`src/utils.js` holds an earlier copy of the same callback. It is character-for-character
the same as the one in `src/lib/utils.js`, so one model covers both. Some rows
below cite one file and some the other.

Sizes are exact `real` numbers, and `Math.floor` is `.Floor`. Nothing in the model
reads a clock, the DOM or the network. The viewer's `viewerData`, its toolbar's
`clientHeight` and its `options` are plain values held by the `Viewer` object.

## Model

| member | source | states |
|---|---|---|
| `PluralForms.PluralIndex` | src/lib/utils.js:69-73 | the computed index is always 0, 1 or 2, so indexing a three-form `titles` never goes out of range |
| `PluralForms.DeclOfNum` | src/lib/utils.js:68-75 | for any count and any `titles` with at least three forms, the chosen form is the one the Russian plural rule names |
| `PluralForms.PluralIndexFollowsRussianRule` | src/lib/utils.js:69-73 | the `cases` table plus the 5..19 override agree with the rule "last digit 1 except 11 → first form; 2..4 except 12..14 → second; otherwise third" for every count |
| `PluralForms.PluralIndexCases` | src/lib/utils.js:71-73 | teens 5..19 give index 2; outside them index 0 exactly when the last digit is 1, index 1 exactly when it is 2..4, index 2 exactly when it is 0 or 5..9 |
| `PluralForms.TeensTakeManyForm` | src/lib/utils.js:71-72 | 11..14 end in 1..4 yet take the third form |
| `PluralForms.PluralIndexOfLastTwoDigits` | src/lib/utils.js:71-73 | the index depends only on `n % 100` |
| `PluralForms.PluralIndexPeriodic` | src/lib/utils.js:71-73 | `declOfNum(n + 100)` picks the same form as `declOfNum(n)` |
| `PluralForms.PluralIndexPeriodicBy` | src/lib/utils.js:71-73 | adding any multiple of 100 leaves the form unchanged |
| `PluralForms.PluralIndexExamples` | src/lib/utils.js:68-75 | 0, 5, 11, 12, 20, 111 take the third form; 1, 21, 101 the first; 2, 4, 22 the second |
| `ViewerFit.GuardDecidesChange` | src/lib/utils.js:14-36 | the guard `imageMinHeight && naturalHeight < imageMinHeight` holds exactly when the step changes some placement the viewer computed; when it is false every placement is kept (both directions) |
| `ViewerFit.FitPlacement` | src/lib/utils.js:18-35 | for an image that passes the guard: the ratio is the largest admissible one under `floor(imageMinHeight / naturalHeight)` and both coverage bounds; width and height are the natural sides times that ratio; `2x + width` is the viewer width and `2y + height` is the viewer height minus the toolbar |
| `ViewerFit.AfterInit` | src/lib/utils.js:14-36 | the placement after the patched step: the old one unchanged when the guard is false; otherwise one capped by `floor(imageMinHeight / naturalHeight)`, scaled by a single ratio and centred below the toolbar |
| `ViewerFit.FitExampleToolbarTallerThanViewer` | src/lib/utils.js:18-30 | the height below the toolbar is not clamped: a 40-pixel toolbar in a 30-pixel viewport gives ratio −0.140625 and a negative height |
| `ViewerFit.ZoomCap` | src/lib/utils.js:22-24 | `floor(imageMinHeight / naturalHeight)` is the largest whole factor whose scaled height does not pass `imageMinHeight`, and it is at least 1 for an image below that height |
| `ViewerFit.Min3` | src/lib/utils.js:26-30 | `Math.min` of three values is at most each of them and equal to one of them |
| `ViewerFit.FitRatio` | src/utils.js:20-24 | the chosen ratio is admissible (at most the whole-number cap, scaled width within `viewerWidth * initialCoverage`, scaled height within `viewerHeight * initialCoverage`), and every admissible ratio is at most it |
| `ViewerFit.FitRespectsZoomCap` | src/utils.js:16-24 | the ratio never exceeds `floor(imageMinHeight / naturalHeight)`; that cap is at least 1; the fitted height never exceeds `imageMinHeight` |
| `ViewerFit.FitWithinCoverage` | src/lib/utils.js:18-33 | fitted width ≤ `viewerData.width * initialCoverage`; fitted height ≤ `(viewerData.height − toolbar.clientHeight) * initialCoverage`, or `viewerData.height * initialCoverage` when there is no toolbar |
| `ViewerFit.FitPreservesAspect` | src/utils.js:25-27 | width and height are scaled by the same ratio: `width * naturalHeight == height * naturalWidth`, and so the same width/height ratio |
| `ViewerFit.FitIsCentred` | src/utils.js:28-29 | `x == (viewerWidth − width) / 2` and `y == (viewerHeight − toolbarHeight − height) / 2`, so left and right margins are equal and so are top and bottom margins below the toolbar |
| `ViewerFit.FitUsesWholeZoomWhenRoomy` | src/lib/utils.js:22-33 | when the whole-number enlargement fits both coverage bounds, the image is shown at exactly that whole factor |
| `ViewerFit.AfterInitKeepsLargeImages` | src/lib/utils.js:14-36 | with `imageMinHeight` absent or 0, or a natural height at or above it, the placement the viewer computed is kept |
| `ViewerFit.AfterInitIdempotent` | src/lib/utils.js:31-35 | applying the fit step to its own result gives the same placement |
| `ViewerFit.FitExampleSquareIcon` | src/utils.js:12-29 | a 64×64 image, an 800×600 viewer, minimum height 768, coverage 0.9: ratio 8.4375, 540×540, at (130, 30) |
| `ViewerFit.Viewer.ApplyFit` | src/lib/utils.js:13-36 | overwrites `ratio`, `width`, `height`, `x`, `y` of `imageData` with `AfterInit` of the old placement; natural sizes, viewer data, toolbar and options stay the same; nothing changes when the guard is false |
| `ViewerFit.ApplyFitTwice` | src/utils.js:25-29 | running the callback a second time leaves the geometry the first run produced |

## Left out

- `cn` (src/lib/utils.js:5-7), a wrapper over the `clsx` and `tailwind-merge` packages. Those packages are not part of this model.
- `getWindowDimensions` and `useWindowDimensions` (src/lib/utils.js:43-66, src/utils.js:37-60): a React hook that reads `window` and listens for resize events. It is browser plumbing, not logic.
- The patching itself in `patchViewer`: keeping `originalInitImage`, calling it with `this`, reassigning `viewer.initImage` and calling `done`. These depend on the viewer library's internals and callback order, which are not part of this model. Only the body of the callback that runs after the original `initImage` is modelled.
- IEEE-754 arithmetic: rounding, and NaN/Infinity from dividing by a zero natural size. The model uses exact reals and asks for positive natural sizes only when the guard holds (the path that divides by them). A NaN `imageMinHeight`, which JavaScript also treats as false, is not modelled.
- The viewer's `imageData` record has more fields than the seven modelled here. The callback does not touch them, so they are left out.
- `DeclOfNum` requires at least three forms. With a shorter `titles` array, JavaScript returns `undefined` for a missing form; the model does not represent that case.
- `declOfNum` with negative or non-integer counts: JavaScript's `%` then gives a negative or fractional remainder. Some such counts (−1, 1.5) index `cases` at a position that is not 0..5 and yield `undefined`. Others still yield the third form: for −10, `-10 % 10` is `-0`, which reads `cases[0]`; 5.5 falls in the 5..19 override. The model takes a `nat`.
- `src/App.jsx`: the Packery layout, `import.meta.glob` asset loading, the `setTimeout` settle delay and JSX rendering. All of it is DOM and timer glue.
- `vite.config.js`: build configuration.
- No query-string filtering or filename parsing appears in the modelled files.
- The code never checks that `initialCoverage` lies in (0, 1], and neither does the model. The lemmas hold for any value.
- The code does not clamp `viewerData.height - toolbarHeight` at 0, and neither does the model. A toolbar taller than the viewport gives a negative ratio (`FitExampleToolbarTallerThanViewer`). When the viewer is small, the ratio can also be below 1, so the image shrinks rather than grows.
