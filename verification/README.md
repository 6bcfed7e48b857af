# ListZoomContext, modelled in Dafny

A zoom context maps integer zoom levels onto map scale denominators. The
list variant does this with an explicit list of scale denominators, where
the first entry belongs to zoom level `initial`. It has three parts:

- `validate` checks the list before it is stored.
- `getScaleDenominator(level)` is a total lookup. Levels before the list
  answer +infinity and levels after it answer 0.
- `getMedialScale(level)` is the boundary between a level and the next
  finer one. It is 0 when the next level lies past the list, and otherwise
  the mean of the two levels' scales.

The model has five modules:

- `JavaDouble` (java_double.dfy): Java's boxed `Double` entries
  (`Null` or a double) and IEEE comparisons. A finite double is an exact
  real, and the infinities and NaN are tags. Every comparison involving NaN
  is false.
- `ListZoom` (list_zoom_context.dfy): the validation loop as a method
  (`Validate`) proved against the function `Validation`. Both
  constructors are methods returning a `Result`; an exception becomes
  `Failure`. The constructed context is the datatype `ListZoomContext`,
  because its two fields are final and never updated. The two lookups are
  its member functions, and query results are `Fin(real)` or `PosInf`.
- `ZoomBands` (zoom_bands.dfy): ordering facts for a list whose scales
  strictly decrease. The band of level N is the open interval between
  `MedialScale(N)` and `MedialScale(N - 1)`. That is where a rule for
  zoom (N, N) applies, read with the strict comparisons of `appliesToScale`
  in the parser tests. Bands of consecutive levels share a boundary.
- `IntendedValidation` (intended_validation.dfy): validation as its doc
  comment describes it, with `last` updated after each entry.
- `Int32Levels` (int32_levels.dfy): the two lookups with 32-bit `int`
  wrap-around, as Java computes `level - initial` and `level + 1`.

Levels in `ListZoom` are unbounded integers. `Int32Levels` shows where
that differs from the code (see Findings).

The doc comment of `validate` (ListZoomContext.java:19-22) promises a
decreasing sequence, but the code never reassigns `last`. It therefore
accepts any list of positive finite values, whatever their order, and
`ListZoom.New` models the code as written. The lemmas that need ordering
take `StrictlyDecreasing` as a precondition.

A one-entry list gives its only level the band (0, +infinity); see
`ZoomBands.SingleScaleBandUnbounded`. The parser test `testZoomSimple`
(YsldParseTest.java:192-211) uses a `simple:` gridset context, not a list
context, and that context is not part of this model.

The medial scale is +infinity before the list only when the next level is
still before the end of the list. With an empty list, level `initial - 1`
gets 0 (`ListZoom.MedialScaleBeforeList`).

## Model

| member | source | states |
|---|---|---|
| ListZoom.Validate | ysld/gt-ysld/src/main/java/org/geotools/ysld/parse/ListZoomContext.java:25-32 | the loop returns exactly the outcome of `Validation`: the first entry that is null, not below +infinity, not positive or not finite stops it with that error, and otherwise it passes |
| ListZoom.EntryCheckAtInfinity | ysld/gt-ysld/src/main/java/org/geotools/ysld/parse/ListZoomContext.java:26-30 | checked against +infinity, an entry passes iff it is non-null, finite and positive; null gives the null error, +infinity "must be decreasing", -infinity and values <= 0 "must be positive", NaN "must be finite" |
| ListZoom.ValidationPassIff | ysld/gt-ysld/src/main/java/org/geotools/ysld/parse/ListZoomContext.java:26-31 | validation passes iff every entry is a non-null, finite, positive value, whatever their order (`last` stays +infinity) |
| ListZoom.ValidationFirstError | ysld/gt-ysld/src/main/java/org/geotools/ysld/parse/ListZoomContext.java:27-30 | validation fails with error e iff some entry k is rejected with e and every entry before k is acceptable: the first offending entry in list order decides the error |
| ListZoom.ValidationOrderIndependent | ysld/gt-ysld/src/main/java/org/geotools/ysld/parse/ListZoomContext.java:26-31 | two lists with the same entries in any order are both accepted or both rejected |
| ListZoom.New | ysld/gt-ysld/src/main/java/org/geotools/ysld/parse/ListZoomContext.java:34-39 | construction fails exactly when validation fails, with its error; on success the context holds a positive copy of the list, entry by entry, and the given `initial` |
| ListZoom.NewDefault | ysld/gt-ysld/src/main/java/org/geotools/ysld/parse/ListZoomContext.java:41-43 | as New, with `initial` 0 |
| ListZoom.ScaleDenominatorCases | ysld/gt-ysld/src/main/java/org/geotools/ysld/parse/ListZoomContext.java:46-51 | for a validated context the lookup is +infinity iff the level is before `initial`, 0 iff it is at or past `initial + size`, and otherwise the positive stored scale at `level - initial` |
| ListZoom.MedialScaleZeroIff | ysld/gt-ysld/src/main/java/org/geotools/ysld/parse/ListZoomContext.java:54-58 | for a validated context the medial scale is 0 iff `level + 1 >= initial + size` |
| ListZoom.MedialScaleBeforeList | ysld/gt-ysld/src/main/java/org/geotools/ysld/parse/ListZoomContext.java:54-60 | before `initial`, the medial scale is +infinity iff `level + 1 < initial + size` (and 0 otherwise) |
| ListZoom.MedialScaleInList | ysld/gt-ysld/src/main/java/org/geotools/ysld/parse/ListZoomContext.java:54-60 | inside the list the medial scale is the positive mean of the level's scale and the next level's |
| ZoomBands.ScaleDenominatorMonotone | ysld/gt-ysld/src/main/java/org/geotools/ysld/parse/ListZoomContext.java:46-51 | for a strictly decreasing list the lookup never increases with the level, and strictly decreases between i < j iff j is not before the list and i is not past it |
| ZoomBands.MedialScaleMonotone | ysld/gt-ysld/src/main/java/org/geotools/ysld/parse/ListZoomContext.java:54-60 | for a strictly decreasing list the medial scale never increases with the level |
| ZoomBands.MedialBetween | ysld/gt-ysld/src/main/java/org/geotools/ysld/parse/ListZoomContext.java:46-61 | for a strictly decreasing list and a level in the list, medial(N) < scale(N) < medial(N - 1) |
| ZoomBands.NativeScaleInBand | ysld/gt-ysld/src/test/java/org/geotools/ysld/parse/YsldParseTest.java:342-351 | the rule for zoom (N, N) applies at level N's own scale |
| ZoomBands.OtherNativeScalesOutsideBand | ysld/gt-ysld/src/test/java/org/geotools/ysld/parse/YsldParseTest.java:342-351 | the rule for zoom (N, N) does not apply at the scale of any other level in the list |
| ZoomBands.BandsDisjoint | ysld/gt-ysld/src/main/java/org/geotools/ysld/parse/ListZoomContext.java:54-60 | no scale lies inside the bands of two different levels |
| ZoomBands.BandsCover | ysld/gt-ysld/src/main/java/org/geotools/ysld/parse/ListZoomContext.java:54-60 | every positive scale that is not itself a medial boundary lies in the band of some level of a non-empty list |
| ZoomBands.ZoomSimpleScenario | ysld/gt-ysld/src/test/java/org/geotools/ysld/parse/YsldParseTest.java:192-211 | on a list context standing in for `simple:2x5000000`, with 10000000, 5000000, 2500000 at levels -1, 0, 1, the rule for zoom (0, 0) applies at 5000000 and neither at 2500000 nor at 10000000 |
| ZoomBands.SingleScaleBandUnbounded | ysld/gt-ysld/src/main/java/org/geotools/ysld/parse/ListZoomContext.java:46-60 | with the one-entry list [5000000] at level 0, the band of level 0 holds every positive scale |
| IntendedValidation.UpdatingLastPassIff | ysld/gt-ysld/src/main/java/org/geotools/ysld/parse/ListZoomContext.java:19-28 | validation with `last` updated accepts exactly the strictly decreasing lists of non-null, finite, positive values |
| IntendedValidation.RepeatedScaleAccepted | ysld/gt-ysld/src/main/java/org/geotools/ysld/parse/ListZoomContext.java:26-28 | the code accepts [5, 5] and [1, 5]; validation with `last` updated rejects both as not decreasing |
| IntendedValidation.IntendedIsStricter | ysld/gt-ysld/src/main/java/org/geotools/ysld/parse/ListZoomContext.java:26-28 | every list the intended check accepts is also accepted by the code |
| Int32Levels.AsWrittenAgreesWithoutOverflow | ysld/gt-ysld/src/main/java/org/geotools/ysld/parse/ListZoomContext.java:46-58 | where `level - initial` and `level + 1` fit in 32 bits, the wrapping lookups equal the unbounded ones |
| Int32Levels.ScaleDenominatorWrapsBelow | ysld/gt-ysld/src/main/java/org/geotools/ysld/parse/ListZoomContext.java:47-49 | with `initial` 1, level `Integer.MIN_VALUE` gets 0 from the code, though it lies before the list (+infinity) |
| Int32Levels.MedialScaleWrapsAtMax | ysld/gt-ysld/src/main/java/org/geotools/ysld/parse/ListZoomContext.java:56-58 | with `initial` 0 and one scale, level `Integer.MAX_VALUE` gets medial scale +infinity from the code, though it lies past the list (0) |

## Left out

- A null list argument (`validate(null)`, `new ListZoomContext(null, …)`) throws a NullPointerException from the for-each at ListZoomContext.java:27; a `seq<Entry>` cannot be null, so only null entries are modelled (`NullValue`).
- IEEE-754 rounding: finite doubles are exact reals, so `(scale + nextScale) / 2` never rounds or overflows to infinity. The signed zero is not distinguished either.
- The `Collections.unmodifiableList` wrapper: the context is an immutable value, so the stored list cannot change after construction.
- The `MedialZoomContext` superclass is not part of this model, and neither are other zoom-context variants.
- Converting a rule's `zoom: (min, max)` into scale denominators is not part of this model. `ZoomBands.InBand` only reads the band of zoom (N, N) as (medial(N), medial(N - 1)), as the parser tests check it.
- The YAML style parser, the `simple:2x5000000@3` gridset syntax and the rest of the parser tests are not modelled.
- MosaicFormat.java (catalog and coverage-store creation) and GeoServerStoreRepositoryResolver.java (repository lookup) are glue over collaborators that are not part of this model.

## Findings

| source | as written | input that shows it | evidently intended | confidence | as-written member | corrected member |
|---|---|---|---|---|---|---|
| ysld/gt-ysld/src/main/java/org/geotools/ysld/parse/ListZoomContext.java:26-28 | `last` is never reassigned, so each entry is only compared with +infinity | [5.0, 5.0] or [1.0, 5.0] is accepted | `last = x` after each entry, so the list must strictly decrease as the doc comment at lines 19-22 says | high; not executed | IntendedValidation.RepeatedScaleAccepted | IntendedValidation.UpdatingLastPassIff |
| ysld/gt-ysld/src/main/java/org/geotools/ysld/parse/ListZoomContext.java:47-48 | `level - initial` is computed in 32-bit `int` and wraps | `initial` = 1, level = `Integer.MIN_VALUE` gives 0 | +infinity for every level before the list | medium; not executed | Int32Levels.ScaleDenominatorWrapsBelow | ListZoom.ScaleDenominatorCases |
| ysld/gt-ysld/src/main/java/org/geotools/ysld/parse/ListZoomContext.java:56-58 | `level + 1` is computed in 32-bit `int` and wraps to `Integer.MIN_VALUE` | one scale, `initial` = 0, level = `Integer.MAX_VALUE` gives +infinity | 0 for every level whose next level is past the list | medium; not executed | Int32Levels.MedialScaleWrapsAtMax | ListZoom.MedialScaleZeroIff |
