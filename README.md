# Logo placement decision engine, modelled in Dafny

This project models the decision core of `LogoPlacementAnalyzer` in
`app.py`. Given a background image and two logo variants, the analyzer
decides which corner the logo goes in, where exactly in that corner, and
which variant to use. The model covers:

- the four corner regions, each a third of the image width and height,
  cut with integer division;
- the margin arithmetic, the anchor of each corner, and whether the logo
  fits in it;
- the suitability score, with its penalties for text, edge clutter and
  lack of space;
- the positional bias and the ranking of the corners, where the head of
  Python's stable descending sort is the first corner holding the highest
  score;
- the admission rules, in order: no corner, insufficient space, score
  below 0.3, success;
- the choice of the dark or light logo from the background brightness,
  after clamping the logo's rectangle to the image;
- the resize decision used when the logo is composited;
- the fallback order for the logo size: dark logo, light logo, 100 x 50;
- the `-logo` rewrite of the storage key.

Vision and network calls become inputs:

- `Probe` gives, for each corner, whether text was recognised and the
  edge density (a real in [0, 1]).
- `brightness` gives the mean brightness of any rectangle.
- Each logo asset is the shape of its decoded image, or `None` when it
  could not be fetched or decoded.

Modules:

- `Common`: the `Option` type and integer min/max.
- `Geometry`: corner names, regions, the rectangle clamp.
- `Scoring`: the corner analysis and the suitability score.
- `Assets`: the logo-size fallback.
- `Variant`: the brightness rule.
- `Placement`:
  - `Decide` is the whole decision as a function of the inputs.
  - `CollectCornerResults` is the corner loop, as a method with a loop
    invariant.
  - `AnalyzePlacement` computes the decision step by step and is proved
    equal to `Decide`.
- `Scenarios`: end-to-end results for an 800 x 600 image.
- `Compositor`: the resize arithmetic.
- `Storage`: the storage key and the returned address.

Exact real numbers stand in for Python floats (see "## Left out" for
where the two differ). A result "dict" becomes a
`Decision` datatype. The failure reasons are constructors carrying the
numbers the source formats into its messages.

The right third of an 800-pixel width starts at `800*2//3 = 533` and is
800 - 533 = 267 pixels wide, one more than `800//3`. The bottom-right
anchor of a 100-pixel-wide logo (app.py:88-92) is therefore
533 + (267 - 25) - 100 = 675, and `Scenarios.PlainBackground` proves 675.

## Model

| member | source | states |
|---|---|---|
| Geometry.Region | app.py:45-50 | Each corner box lies inside the image. Left boxes span x from 0 to `w//3` and top boxes span y from 0 to `h//3`. Right boxes start at `w*2//3`, end at `w` and are exactly `(w+2)//3` wide (the rounded-up third). Bottom boxes likewise start at `h*2//3`, end at `h` and are `(h+2)//3` tall. |
| Geometry.RegionsDisjoint | app.py:45-50 | Left boxes end no later than right boxes start, and top boxes end no later than bottom boxes start. |
| Geometry.LookupCorner | app.py:45-53 | The dictionary lookup `corners[corner]`. It has no contract of its own: `Geometry.LookupKeys` and `Geometry.LookupName` state it. |
| Geometry.LookupKeys | app.py:45-53 | The dictionary lookup finds a corner exactly when the name is one of the four keys, and the corner it finds carries that name. |
| Geometry.LookupName | app.py:45-53 | Looking up each corner's own name finds that corner. |
| Geometry.ClampRect | app.py:137-141 | The clamped rectangle has 0 <= x1, 0 <= y1, x2 <= w and y2 <= h. A rectangle already inside the image is left unchanged. |
| Scoring.Suitability | app.py:97-104 | The score lies in [0, 1] for any density in [0, 1]. A logo that does not fit scores at most 0.1. A clean corner with room scores exactly 1.0. |
| Scoring.PenaltiesCompose | app.py:97-104 | Text scales the score by exactly 0.3. Lack of space scales it by exactly 0.1. A density at or below 0.1 changes nothing. A density above 0.1 scales the score by (1 - density). |
| Scoring.EdgeDensityExamples | app.py:101-102 | A density of 0.05 applies no penalty. A density of 0.2 scales the score by 0.8. |
| Scoring.AnalyzeCorner | app.py:72-95 | Available width and height are the region's size minus 25. The anchor sits 25 px in from both edges meeting at the corner. Space is sufficient iff both logo sides fit the available space. When it is, the logo rectangle lies inside the corner's box. The score is the suitability of the corner's signals. |
| Scoring.AnalyzeCornerSpace | app.py:40-55 | `analyze_corner_space` with the `None` for an unknown name. It has no contract of its own: `Scoring.AnalyzeCornerSpaceKeys` states it, and `Scoring.AnalyzeCorner` states the record. |
| Scoring.AnalyzeCornerSpaceKeys | app.py:40-55 | The analysis yields a record exactly for the four corner names (None otherwise). The record belongs to the corner of that name and is that corner's analysis. |
| Assets.LogoDimensions | app.py:269-284 | The size is the dark logo's if it decoded, else the light logo's, else 100 x 50. Rows are height and columns are width. |
| Assets.LogoDimensionsPrecedence | app.py:271-284 | When the dark logo decodes, the light logo has no effect. The size is positive when every decoded asset is non-empty. |
| Variant.SelectLogoVariant | app.py:153-166 | The dark logo is chosen iff brightness > 127. The contrast ratio is brightness/255 for dark and (255 - brightness)/255 for light. It always exceeds 127/255, and it is at most 1 for brightness in [0, 255]. |
| Variant.BrightnessBoundary | app.py:160 | 127 selects the light logo and 128 the dark one. |
| Variant.SelectedLogoUrl | app.py:350 | The URL of the chosen variant. It has no contract of its own: `Placement.SuccessfulPlacement` and `Placement.AdmittedCorner` state that the selected URL follows the variant. |
| Placement.Biased | app.py:303-309 | The bias of the loop. It has no contract of its own: `Placement.EqualBaseScoresRankByBias` states the order 1.25 > 1.15 > 1.05 > 1 it imposes, and `Placement.UniformWinner` its effect on a uniform background. |
| Placement.CornerResults | app.py:297-311 | The list the loop builds, as a function of the names. It has no contract of its own: `Placement.ResultsPrefixStep`, `Placement.CornerResultsStep` and `Placement.AllCornersAnalyzed` state it, and `Placement.CollectCornerResults` is proved equal to it. |
| Placement.ResultsPrefixStep | app.py:300-311 | One more name in the loop appends that name's biased record when the analysis yields one, and appends nothing otherwise. |
| Placement.CornerResultsStep | app.py:300-311 | The k-th name of the evaluation order always yields the k-th corner's record, which the loop appends with its bias. |
| Placement.AllCornersAnalyzed | app.py:297-311 | The loop always produces four records: top-left, top-right, bottom-left, bottom-right, in that order, each with its bias applied. |
| Placement.CollectCornerResults | app.py:297-311 | The loop's list `all_corner_results` equals the records of all four names, in evaluation order. |
| Placement.FirstBest | app.py:313-315 | The head of the stable descending sort is a valid index. Its score is at least every record's score, and strictly above that of every earlier record, so a tie goes to the earliest corner. |
| Placement.BestCorner | app.py:313-315 | `best_corner` is None iff the list is empty. Otherwise it is a record of the list whose score is at least every record's. |
| Placement.WinnerIsFirstBest | app.py:300-315 | The winning corner's biased score is at least every corner's, and strictly above every corner evaluated before it. `best_corner` is the winner's biased record. |
| Placement.EqualBaseScoresRankByBias | app.py:303-315 | With equal positive base scores, the order is bottom-right > bottom-left > top-right > top-left and bottom-right wins. With four zero scores, top-left wins the tie. |
| Placement.Decide | app.py:286-362 | The whole decision as a function of the inputs. It has no contract of its own: `Placement.DecideAdmitsWinner`, `Placement.NoCornerFailureUnreachable`, `Placement.SuccessfulPlacement`, `Placement.CleanCornerGuaranteesSuccess` and `Placement.NoRoomFails` state it, and `Placement.AnalyzePlacement` is proved equal to it. |
| Placement.Admit | app.py:326-362 | The rules apply in order. No corner fails with NoSuitableCorner. A corner without room fails with InsufficientSpace, carrying its corner, available size and the logo size, whatever its score. A score below 0.3 fails with LowConfidence, carrying the score and the corner. Success happens exactly when neither applies. It places the logo at the corner's anchor with the logo's size, chooses the variant from the brightness of the clamped rectangle, and selects the URL of that variant. |
| Placement.DecideAdmitsWinner | app.py:313-336 | The decision is the admission rules applied to the winning corner's biased record. |
| Placement.NoCornerFailureUnreachable | app.py:326-328 | The "no corners found suitable" outcome never happens. |
| Placement.SuccessfulPlacement | app.py:338-362 | A successful decision places the logo, at the resolved size, in the winning corner's box and inside the image. It is 25 px in from the edges meeting at that corner. The winner's biased score is at least 0.3. The dark variant is chosen iff the brightness of exactly the logo's rectangle exceeds 127, and the selected URL follows the variant. |
| Placement.AdmittedCorner | app.py:338-362 | Admitting a corner's record successfully yields that corner, the logo size, a score of at least 0.3, a rectangle inside the box and the image, the anchors, and the variant of the unclamped rectangle's brightness. |
| Placement.CleanCornerGuaranteesSuccess | app.py:297-362 | If any corner is free of text and clutter and has room for the logo, the decision succeeds. |
| Placement.NoRoomFails | app.py:330-332 | If the logo fits in no corner, the decision fails with InsufficientSpace, naming the winner, its available size and the logo size. |
| Placement.FitsEverywhere | app.py:73-95 | A logo within `w//3 - 25` by `h//3 - 25` fits in every corner. |
| Placement.FitsNowhere | app.py:73-95 | A logo wider than `(w+2)//3 - 25`, or taller than `(h+2)//3 - 25`, fits in no corner. |
| Placement.UniformScores | app.py:97-104 | Identical signals and identical fit give every corner the same base score. |
| Placement.UniformWinner | app.py:300-315 | With identical signals, identical fit and a positive score, bottom-right wins the ranking. |
| Placement.AdmitBottomRight | app.py:334-362 | For a logo that fits, admitting the bottom-right record succeeds at (w - 25 - width, h - 25 - height) when 1.25 x score reaches 0.3. Otherwise it fails with LowConfidence and that score. |
| Placement.AdmitBottomRightNoRoom | app.py:330-332 | For a logo that does not fit, admitting the bottom-right record fails with InsufficientSpace, carrying the box size minus 25 and the logo size. |
| Placement.UniformBackground | app.py:296-362 | Same signals everywhere and a logo that fits: the decision is success at bottom-right, 25 px from the right and bottom edges, exactly when 1.25 x score >= 0.3. Otherwise it is LowConfidence with that score. |
| Placement.UniformBackgroundNoRoom | app.py:296-332 | Same signals everywhere and a logo too big for any corner: the decision is InsufficientSpace at bottom-right with its available size. |
| Placement.AnalyzePlacement | app.py:286-362 | The step-by-step analysis returns exactly `Decide`'s decision, and never NoSuitableCorner. |
| Scenarios.PlainBackground | app.py:286-362 | 800 x 600, no text, no edges, 100 x 50 logo: success at bottom-right, (675, 525). The variant comes from the brightness of (675, 525)-(775, 575). |
| Scenarios.TextEverywhere | app.py:286-362 | With text in every corner, the bottom-right biased score is 0.3 x 1.25 = 0.375, and the decision still succeeds at (675, 525). |
| Scenarios.TextScore | app.py:286-311 | On 800 x 600 with text in every corner and a 100 x 50 logo, bottom-right scores 0.3 before the bias and 0.375 after it. |
| Scenarios.BottomRightBiasedScore | app.py:303-305 | Where the logo fits, the bottom-right biased score is 1.25 times the corner's base score. |
| Scenarios.TextAndClutterEverywhere | app.py:286-362 | With text and density 0.5 everywhere, the decision fails with LowConfidence(0.1875, bottom-right). |
| Scenarios.LogoTooLarge | app.py:286-332 | A 300 x 250 logo on 800 x 600 fails with InsufficientSpace(bottom-right, 242 x 175 available, 300 x 250 required). |
| Compositor.ResizeFor | app.py:185-201 | The resize decision in real arithmetic. It has no contract of its own: `Compositor.ResizeFits`, `Compositor.LetterboxKeepsRatio` and `Compositor.ResizeMatchesIntegers` state it. |
| Compositor.RatioComparisons | app.py:187-192 | The tolerance test and the orientation test on real aspect ratios equal integer tests on the cross product `nw*th - tw*nh`. |
| Compositor.WideSide | app.py:192-194 | On exact reals, the truncated height of a letterboxed wide logo, `floor(tw / (nw/nh))`, is `tw*nh // nw`. |
| Compositor.TallSide | app.py:195-197 | On exact reals, the truncated width of a letterboxed tall logo, `floor(th * (nw/nh))`, is `th*nw // nh`. |
| Compositor.FloorOfQuotient | app.py:194-197 | The floor of the model's exact real quotient of two naturals is integer division. This is the model's stand-in for `int()`; the source truncates a float rounded twice (see `Compositor.ResizeFor` under "## Left out"). |
| Compositor.ResizeMatchesIntegers | app.py:185-201 | The real-arithmetic resize decision equals its integer-only restatement on every input. |
| Compositor.IntegerResizeFits | app.py:185-201 | The integer decision keeps the native size iff it equals the target. Otherwise the new size fits the target box with one side equal to the target's. |
| Compositor.ResizeFits | app.py:185-201 | No resize iff the native size is the target. A resized logo fits inside the target box with one side equal to the target's, and similar ratios give exactly the target. |
| Compositor.LetterboxKeepsRatio | app.py:190-198 | When the ratios differ by more than 0.1, the logo is letterboxed. A wider logo takes the target width, and its height is the largest whole number not above the native ratio. A taller logo takes the target height, and its width is the largest whole number not above the native ratio. |
| Compositor.LetterboxExample | app.py:190-198 | A 200 x 50 logo for a 100 x 50 box becomes 100 x 25. |
| Compositor.LetterboxExactFloorExample | app.py:190-198 | On exact reals a 25 x 11 logo for a 100 x 50 box becomes 100 x 44 (the source's floats give 100 x 43, see "## Left out"). |
| Compositor.CompositeFor | app.py:168-214 | The image comes back unchanged exactly when the logo cannot be fetched or decoded, the background has no colour channel axis (the conversion at app.py:179 fails), or the resize asks for a zero side. Otherwise the logo is pasted at the placement at exactly the size `Compositor.ResizeFor` decides: its native size when that is the target, else the stretched or letterboxed size. That size lies within the target box, with both sides positive when it was resized. |
| Compositor.ZeroSideKeepsOriginal | app.py:190-214 | A 1000 x 1 logo letterboxed into 100 x 50 would be 100 x 0, so the background comes back unchanged. |
| Storage.LastDot | app.py:243 | The position found holds a dot and no dot follows it. With no position, the key has no dot. |
| Storage.SplitLastDot | app.py:243 | `rsplit('.', 1)`: the parts rejoin with a dot to the key and the extension has no dot. With no dot, the key is returned whole. |
| Storage.SplitJoin | app.py:243 | Splitting stem + "." + a dot-free extension gives back the stem and the extension. |
| Storage.LogoKey | app.py:243-247 | The `-logo` rewrite of the key. It has no contract of its own: `Storage.LogoKeySplit` and the three example lemmas state it. |
| Storage.LogoKeySplit | app.py:243-247 | Splitting the new key gives the old stem + "-logo" and the old extension, or "png" when the old key had none. |
| Storage.LogoKeyExample | app.py:243-247 | "a/b.jpg" becomes "a/b-logo.jpg". |
| Storage.LogoKeyLastDotExample | app.py:243-247 | "x.tar.gz" becomes "x.tar-logo.gz": only the last dot splits. |
| Storage.LogoKeyNoDotExample | app.py:246-247 | "photo" becomes "photo-logo.png". |
| Storage.UploadUrl | app.py:238-263 | No address without a bucket or a key. Otherwise the address ends with the rewritten key. |

## Left out

- Image and logo downloads, S3 uploads, `uuid` local file names and
  `cv2.imwrite` are I/O. Logo downloads become `Option` shapes; the
  storage address is modelled only up to the string it returns.
- Text recognition and edge detection are foreign vision libraries.
  Their answers per corner are the `Probe` input.
- Grayscale conversion and `np.mean` are library pixel numerics. The mean
  brightness of a rectangle is the `brightness` input.
- Resampling, pasting with an alpha mask and colour conversion are
  library image operations. Only the size arithmetic and the
  keep-the-original fallback are modelled.
- HTTP routes, JSON handling and the `/cleanup` endpoint are server
  plumbing.
- `parse_s3_url`: its result depends on `urlparse`, which is not part of
  this model. `Storage.UploadUrl` takes the bucket and key directly.
- Storage.UploadUrl: the upload's failure paths are not modelled. A
  `False` from `cv2.imencode` (app.py:251-252) and the two S3 errors the
  source catches, `NoCredentialsError` and `ClientError` (app.py:265),
  return no address. Any other S3 error, or an exception raised by
  `cv2.imencode`, reaches the "Processing error" outcome of
  `analyze_placement` (app.py:396-403).
- `find_best_corner` is never called by `analyze_placement`, and it uses
  a different bias.
- The "Processing error" outcome is not modelled. This is the exception
  path of `analyze_placement`, for example when the vision calls reject
  an empty region of an image narrower or shorter than 3 pixels.
- IEEE floating point and the `:.2f` formatting of the reasons. Scores
  and ratios are exact reals, and reasons carry their numbers as fields.
  Results can differ where a float rounds across a threshold.
- Compositor.ResizeFor: the 0.1 tolerance test is on exact reals, so a
  logo whose ratios differ by exactly 0.1 is stretched. In floating point
  the difference can round to just above 0.1: for 110 x 100 into
  100 x 100, `abs(1.1 - 1.0)` is 0.10000000000000009, so the source
  letterboxes to 100 x 90 where the model stretches to 100 x 100.
  The letterboxed side is also truncated from an exact quotient, while
  the source truncates a float rounded twice (the ratio, then the
  quotient), which can land just below a whole number. For a 25 x 11 logo
  in a 100 x 50 box, `100 / (25/11)` is 43.99999999999999 in doubles, so
  the source pastes 100 x 43 where the model
  (`Compositor.LetterboxExactFloorExample`) gives 100 x 44. Likewise
  11 x 15 into 150 x 75 gives 54 x 75 in the source and 55 x 75 in the
  model. Every logo with such a ratio differs the same way.
- Scoring.Suitability: the factors are multiplied with the density factor
  first. Real multiplication commutes, so this matches the source's order
  exactly on reals, but not to the last bit of floating point.
- Placement.CollectCornerResults: the in-place sort is represented only
  by its head, `Placement.FirstBest`. The rest of the sorted order never
  reaches the result.
- Compositor.CompositeFor: the failures modelled are a missing logo,
  a background without three or four colour channels, and a resize to a
  zero side. Other exceptions inside the library calls, such as running
  out of memory or a logo the resampler cannot handle, also return the
  original image (app.py:212-214) and are not modelled.
- `min_margin` (12) is declared but never read, so it is not modelled.
