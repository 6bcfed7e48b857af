/**
  Ordering properties of a list zoom context whose scales strictly decrease.

  Validation as written does not enforce the order (see module
  IntendedValidation), so every lemma here takes StrictlyDecreasing as a
  precondition of its own.

  The band of a zoom level N is the open interval of scale denominators
  between MedialScale(N) and MedialScale(N - 1): a rule for zoom levels
  (N, N) applies to a scale strictly inside it. Consecutive levels share a
  boundary by construction, since the lower edge of band N and the upper
  edge of band N + 1 are both MedialScale(N).
*/
module ZoomBands {
  import opened ListZoom

  /** Every adjacent pair of the list strictly decreases. */
  predicate StrictlyDecreasing(s: seq<real>) {
    forall i :: 0 <= i < |s| - 1 ==> s[i] > s[i + 1]
  }

  /** `a <= b` on query results. */
  predicate AtMost(a: Scale, b: Scale) {
    !Below(b, a)
  }

  /** The scale lies strictly inside the band of zoom level `level`. */
  predicate InBand(ctx: ListZoomContext, level: int, scale: real) {
    Below(ctx.MedialScale(level), Fin(scale)) && Below(Fin(scale), ctx.MedialScale(level - 1))
  }

  /** Adjacent strict decrease gives strict decrease between any two positions. */
  lemma {:induction false} DecreasingPairwise(s: seq<real>, i: int, j: int)
    requires StrictlyDecreasing(s)
    requires 0 <= i < j < |s|
    ensures s[i] > s[j]
    decreases j - i
  {
    if j > i + 1 {
      DecreasingPairwise(s, i, j - 1);
    }
  }

  /** Coarser levels never have a smaller scale denominator, and strictly a larger
      one unless both levels lie before the list or both after it. */
  lemma ScaleDenominatorMonotone(ctx: ListZoomContext, i: int, j: int)
    requires ctx.Valid() && StrictlyDecreasing(ctx.scales)
    requires i < j
    ensures AtMost(ctx.ScaleDenominator(j), ctx.ScaleDenominator(i))
    ensures Below(ctx.ScaleDenominator(j), ctx.ScaleDenominator(i)) <==>
      ctx.initial <= j && i < ctx.initial + |ctx.scales|
  {
    ScaleDenominatorCases(ctx, i);
    ScaleDenominatorCases(ctx, j);
    if ctx.initial <= i && j < ctx.initial + |ctx.scales| {
      DecreasingPairwise(ctx.scales, i - ctx.initial, j - ctx.initial);
    }
  }

  /** The medial scales never increase from one level to a finer one. */
  lemma MedialScaleMonotone(ctx: ListZoomContext, m: int, n: int)
    requires ctx.Valid() && StrictlyDecreasing(ctx.scales)
    requires m <= n
    ensures AtMost(ctx.MedialScale(n), ctx.MedialScale(m))
  {
    if m < n {
      ScaleDenominatorMonotone(ctx, m, n);
      ScaleDenominatorMonotone(ctx, m + 1, n + 1);
      ScaleDenominatorCases(ctx, m + 1);
      ScaleDenominatorCases(ctx, n + 1);
    }
  }

  /** A level's own scale lies strictly between its two medial boundaries. */
  lemma MedialBetween(ctx: ListZoomContext, n: int)
    requires ctx.Valid() && StrictlyDecreasing(ctx.scales)
    requires ctx.initial <= n < ctx.initial + |ctx.scales|
    ensures Below(ctx.MedialScale(n), ctx.ScaleDenominator(n))
    ensures Below(ctx.ScaleDenominator(n), ctx.MedialScale(n - 1))
  {
  }

  /** So the rule for zoom (n, n) applies at level n's own scale. */
  lemma NativeScaleInBand(ctx: ListZoomContext, n: int)
    requires ctx.Valid() && StrictlyDecreasing(ctx.scales)
    requires ctx.initial <= n < ctx.initial + |ctx.scales|
    ensures InBand(ctx, n, ctx.scales[n - ctx.initial])
  {
  }

  /** No scale lies in the bands of two different levels. */
  lemma BandsDisjoint(ctx: ListZoomContext, m: int, n: int, scale: real)
    requires ctx.Valid() && StrictlyDecreasing(ctx.scales)
    requires InBand(ctx, m, scale) && InBand(ctx, n, scale)
    ensures m == n
  {
    if m < n {
      MedialScaleMonotone(ctx, m, n - 1);
    } else if n < m {
      MedialScaleMonotone(ctx, n, m - 1);
    }
  }

  /** The rule for zoom (n, n) does not apply at any other listed level's scale. */
  lemma OtherNativeScalesOutsideBand(ctx: ListZoomContext, m: int, n: int)
    requires ctx.Valid() && StrictlyDecreasing(ctx.scales)
    requires ctx.initial <= m < ctx.initial + |ctx.scales|
    requires m != n
    ensures !InBand(ctx, n, ctx.scales[m - ctx.initial])
  {
    NativeScaleInBand(ctx, m);
    if InBand(ctx, n, ctx.scales[m - ctx.initial]) {
      BandsDisjoint(ctx, m, n, ctx.scales[m - ctx.initial]);
    }
  }

  /** Searching finer from level k: a scale below k's upper boundary falls in some band from k on. */
  lemma {:induction false} CoverFrom(ctx: ListZoomContext, scale: real, k: int)
    requires ctx.Valid()
    requires scale > 0.0
    requires forall level :: ctx.MedialScale(level) != Fin(scale)
    requires ctx.initial <= k < ctx.initial + |ctx.scales|
    requires Below(Fin(scale), ctx.MedialScale(k - 1))
    ensures exists n :: ctx.initial <= n < ctx.initial + |ctx.scales| && InBand(ctx, n, scale)
    decreases ctx.initial + |ctx.scales| - k
  {
    if Below(ctx.MedialScale(k), Fin(scale)) {
      assert InBand(ctx, k, scale);
    } else {
      assert ctx.MedialScale(k) != Fin(scale);
      MedialScaleZeroIff(ctx, k);
      CoverFrom(ctx, scale, k + 1);
    }
  }

  /** The bands of the listed levels cover every positive scale except their own boundaries. */
  lemma BandsCover(ctx: ListZoomContext, scale: real)
    requires ctx.Valid() && |ctx.scales| > 0
    requires scale > 0.0
    requires forall level :: ctx.MedialScale(level) != Fin(scale)
    ensures exists n :: ctx.initial <= n < ctx.initial + |ctx.scales| && InBand(ctx, n, scale)
  {
    MedialScaleBeforeList(ctx, ctx.initial - 1);
    CoverFrom(ctx, scale, ctx.initial);
  }

  /** A list standing for the gridset `2x5000000`: zoom 0 has 5000000, its neighbours
      10000000 and 2500000; the rule for zoom (0, 0) applies at the first only. */
  lemma ZoomSimpleScenario()
    ensures var ctx := ListZoomContext([10000000.0, 5000000.0, 2500000.0], -1);
      InBand(ctx, 0, 5000000.0) && !InBand(ctx, 0, 2500000.0) && !InBand(ctx, 0, 10000000.0)
  {
  }

  /** A one-entry list has no neighbouring level to bound its band: the rule for its
      only level applies at every positive scale. */
  lemma SingleScaleBandUnbounded(scale: real)
    requires scale > 0.0
    ensures InBand(ListZoomContext([5000000.0], 0), 0, scale)
  {
  }
}
