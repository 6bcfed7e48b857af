/**
  The lookups with Java's 32-bit `int` arithmetic: `level - initial` and
  `level + 1` wrap around. Where neither overflows they agree with the
  unbounded lookups of module ListZoom; at the ends of the `int` range they
  do not.
*/
module Int32Levels {
  import opened ListZoom

  const MIN_INT: int := -0x8000_0000
  const MAX_INT: int := 0x7fff_ffff

  predicate IsInt32(x: int) {
    MIN_INT <= x <= MAX_INT
  }

  /** The 32-bit two's-complement value of `x`. */
  function Wrap(x: int): (r: int)
    ensures IsInt32(r)
    ensures (r - x) % 0x1_0000_0000 == 0
    ensures IsInt32(x) ==> r == x
  {
    (x - MIN_INT) % 0x1_0000_0000 + MIN_INT
  }

  /** `getScaleDenominator(level)` with `level - initial` computed in 32 bits. */
  function ScaleDenominatorAsWritten(ctx: ListZoomContext, level: int): Scale
    requires IsInt32(level) && IsInt32(ctx.initial)
  {
    var i := Wrap(level - ctx.initial);
    if i < 0 then PosInf
    else if i >= |ctx.scales| then Fin(0.0)
    else Fin(ctx.scales[i])
  }

  /** `getMedialScale(level)` with `level + 1` computed in 32 bits. */
  function MedialScaleAsWritten(ctx: ListZoomContext, level: int): Scale
    requires IsInt32(level) && IsInt32(ctx.initial)
  {
    var scale := ScaleDenominatorAsWritten(ctx, level);
    var nextScale := ScaleDenominatorAsWritten(ctx, Wrap(level + 1));
    if nextScale == Fin(0.0) then Fin(0.0) else Mean(scale, nextScale)
  }

  /** Without overflow the 32-bit lookups are the unbounded ones. */
  lemma AsWrittenAgreesWithoutOverflow(ctx: ListZoomContext, level: int)
    requires IsInt32(level) && IsInt32(ctx.initial)
    requires IsInt32(level - ctx.initial)
    ensures ScaleDenominatorAsWritten(ctx, level) == ctx.ScaleDenominator(level)
    ensures level < MAX_INT && IsInt32(level + 1 - ctx.initial) ==>
      MedialScaleAsWritten(ctx, level) == ctx.MedialScale(level)
  {
  }

  /** `level - initial` wraps: the lowest level, far before the list, is read as past its end. */
  lemma ScaleDenominatorWrapsBelow()
    ensures var ctx := ListZoomContext([5000000.0], 1);
      ScaleDenominatorAsWritten(ctx, MIN_INT) == Fin(0.0) && ctx.ScaleDenominator(MIN_INT) == PosInf
  {
  }

  /** `level + 1` wraps: the highest level, past the list, gets medial scale +infinity instead of 0. */
  lemma MedialScaleWrapsAtMax()
    ensures var ctx := ListZoomContext([5000000.0], 0);
      MedialScaleAsWritten(ctx, MAX_INT) == PosInf && ctx.MedialScale(MAX_INT) == Fin(0.0)
  {
  }
}
