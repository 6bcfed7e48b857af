/**
  A zoom context given by an explicit list of scale denominators.

  Zoom level `initial` has the first scale of the list, level `initial + 1`
  the second, and so on. Levels before the list are infinitely coarse
  (+infinity), levels after it infinitely fine (0). The medial scale of a
  level is the boundary between it and the next finer level.

  Levels are unbounded integers here; Java's 32-bit `int` arithmetic
  is modelled separately in module Int32Levels.
*/
module ListZoom {
  import opened Wrappers
  import opened JavaDouble

  /** Why a scale list is refused when a context is constructed. */
  datatype ValidationError =
    | NullValue      // the loop unboxes a null entry: NullPointerException
    | NotDecreasing  // IllegalArgumentException "Scale denominator list must be decreasing"
    | NotPositive    // IllegalArgumentException "Scale Denominators must be positive"
    | NotFinite      // IllegalArgumentException "Scale Denominators must be finite"

  /** One pass of the validation loop's body: entry `x` checked against `last`. */
  function EntryCheck(x: Entry, last: Double): Option<ValidationError> {
    match x
    case Null => Some(NullValue)
    case Boxed(d) =>
      if Ge(d, last) then Some(NotDecreasing)
      else if Le(d, Num(0.0)) then Some(NotPositive)
      else if IsInfinite(d) || IsNaN(d) then Some(NotFinite)
      else None
  }

  /** A non-null, finite, positive entry. */
  predicate Acceptable(x: Entry) {
    x.Boxed? && x.value.Num? && x.value.v > 0.0
  }

  predicate AllAcceptable(s: seq<Entry>) {
    forall i :: 0 <= i < |s| ==> Acceptable(s[i])
  }

  /**
    The validation loop as the code runs it: `last` starts at +infinity and
    is never reassigned, so every entry is checked against +infinity.
  */
  function Validation(s: seq<Entry>): Outcome<ValidationError> {
    if s == [] then Pass
    else match EntryCheck(s[0], PInf)
      case Some(e) => Fail(e)
      case None => Validation(s[1..])
  }

  /** Entry `k` is the first one the loop rejects, and it is rejected with `e`. */
  predicate FirstOffence(s: seq<Entry>, k: int, e: ValidationError) {
    0 <= k < |s| && (forall j :: 0 <= j < k ==> Acceptable(s[j])) && EntryCheck(s[k], PInf) == Some(e)
  }

  /** Checks a scale list before it is stored; the early exits are the exceptions. */
  method Validate(scales: seq<Entry>) returns (r: Outcome<ValidationError>)
    ensures r == Validation(scales)
  {
    var last := PInf;
    for i := 0 to |scales|
      invariant Validation(scales[i..]) == Validation(scales)
    {
      assert scales[i..][0] == scales[i] && scales[i..][1..] == scales[i + 1..];
      var x := scales[i];
      if x.Null? {
        return Fail(NullValue);
      }
      var d := x.value;
      if Ge(d, last) {
        return Fail(NotDecreasing);
      }
      if Le(d, Num(0.0)) {
        return Fail(NotPositive);
      }
      if IsInfinite(d) || IsNaN(d) {
        return Fail(NotFinite);
      }
    }
    assert scales[|scales|..] == [];
    return Pass;
  }

  /** Against +infinity, the loop body lets through exactly the acceptable entries,
      and each kind of bad entry gets its own error. */
  lemma EntryCheckAtInfinity(x: Entry)
    ensures EntryCheck(x, PInf) == None <==> Acceptable(x)
    ensures x == Null ==> EntryCheck(x, PInf) == Some(NullValue)
    ensures x == Boxed(PInf) ==> EntryCheck(x, PInf) == Some(NotDecreasing)
    ensures x == Boxed(NInf) ==> EntryCheck(x, PInf) == Some(NotPositive)
    ensures x.Boxed? && x.value.Num? && x.value.v <= 0.0 ==> EntryCheck(x, PInf) == Some(NotPositive)
    ensures x == Boxed(NaN) ==> EntryCheck(x, PInf) == Some(NotFinite)
  {
  }

  /** Validation accepts exactly the lists of non-null, finite, positive values. */
  lemma {:induction false} ValidationPassIff(s: seq<Entry>)
    ensures Validation(s).Pass? <==> AllAcceptable(s)
  {
    if s != [] {
      EntryCheckAtInfinity(s[0]);
      ValidationPassIff(s[1..]);
      assert forall i :: 1 <= i < |s| ==> s[i] == s[1..][i - 1];
    }
  }

  /** The error reported is the one of the first rejected entry, in list order. */
  lemma {:induction false} ValidationFirstError(s: seq<Entry>, e: ValidationError)
    ensures Validation(s) == Fail(e) <==> exists k :: FirstOffence(s, k, e)
  {
    if s == [] {
      return;
    }
    EntryCheckAtInfinity(s[0]);
    match EntryCheck(s[0], PInf)
    case Some(e0) =>
      if e0 == e {
        assert FirstOffence(s, 0, e);
      }
      forall k | FirstOffence(s, k, e) ensures k == 0 {
      }
    case None =>
      ValidationFirstError(s[1..], e);
      forall k | FirstOffence(s[1..], k, e) ensures FirstOffence(s, k + 1, e) {
        assert forall j :: 1 <= j < k + 1 ==> s[j] == s[1..][j - 1];
      }
      forall k | FirstOffence(s, k, e) ensures FirstOffence(s[1..], k - 1, e) {
        assert k != 0;
        assert forall j :: 0 <= j < k - 1 ==> s[1..][j] == s[j + 1];
      }
  }

  /** Whether a list is accepted does not depend on the order of its entries. */
  lemma ValidationOrderIndependent(s: seq<Entry>, t: seq<Entry>)
    requires multiset(s) == multiset(t)
    ensures Validation(s).Pass? <==> Validation(t).Pass?
  {
    ValidationPassIff(s);
    ValidationPassIff(t);
    forall x ensures x in s <==> x in t {
      assert x in s <==> x in multiset(s);
      assert x in t <==> x in multiset(t);
    }
    if AllAcceptable(s) {
      forall j | 0 <= j < |t| ensures Acceptable(t[j]) {
        assert t[j] in s;
      }
    }
    if AllAcceptable(t) {
      forall j | 0 <= j < |s| ensures Acceptable(s[j]) {
        assert s[j] in t;
      }
    }
  }

  /** The values of a list of acceptable entries, in order. */
  function Unboxed(s: seq<Entry>): (r: seq<real>)
    requires AllAcceptable(s)
    ensures |r| == |s|
    ensures forall i :: 0 <= i < |s| ==> s[i] == Boxed(Num(r[i])) && r[i] > 0.0
  {
    seq(|s|, i requires 0 <= i < |s| => s[i].value.v)
  }

  /** A scale denominator answered by a query: finite and non-negative, or +infinity. */
  datatype Scale = Fin(v: real) | PosInf

  /** `a < b` on query results. */
  predicate Below(a: Scale, b: Scale) {
    match a
    case PosInf => false
    case Fin(x) => b.PosInf? || x < b.v
  }

  /** `(a + b) / 2` in exact arithmetic; +infinity absorbs a finite operand. */
  function Mean(a: Scale, b: Scale): Scale {
    if a.Fin? && b.Fin? then Fin((a.v + b.v) / 2.0) else PosInf
  }

  /** A constructed context: its own copy of the scale list and the level of its first entry. */
  datatype ListZoomContext = ListZoomContext(scales: seq<real>, initial: int) {

    /** What a successful construction guarantees of the stored list. */
    predicate Valid() {
      forall i :: 0 <= i < |scales| ==> scales[i] > 0.0
    }

    /** `getScaleDenominator(level)` */
    function ScaleDenominator(level: int): Scale {
      var i := level - initial;
      if i < 0 then PosInf
      else if i >= |scales| then Fin(0.0)
      else Fin(scales[i])
    }

    /** `getMedialScale(level)` */
    function MedialScale(level: int): Scale {
      var scale := ScaleDenominator(level);
      var nextScale := ScaleDenominator(level + 1);
      if nextScale == Fin(0.0) then Fin(0.0) else Mean(scale, nextScale)
    }
  }

  /** `new ListZoomContext(scales, initial)`: validates, then stores a copy. */
  method New(scales: seq<Entry>, initial: int) returns (r: Result<ListZoomContext, ValidationError>)
    ensures r.Failure? <==> Validation(scales).Fail?
    ensures r.Failure? ==> r.error == Validation(scales).error
    ensures r.Success? ==> r.value.Valid() && r.value.initial == initial
    ensures r.Success? ==> |r.value.scales| == |scales|
    ensures r.Success? ==> forall i :: 0 <= i < |scales| ==> scales[i] == Boxed(Num(r.value.scales[i]))
  {
    var checked := Validate(scales);
    if checked.Fail? {
      return Failure(checked.error);
    }
    ValidationPassIff(scales);
    var copy := Unboxed(scales);
    return Success(ListZoomContext(copy, initial));
  }

  /** `new ListZoomContext(scales)`: the list starts at zoom level 0. */
  method NewDefault(scales: seq<Entry>) returns (r: Result<ListZoomContext, ValidationError>)
    ensures r.Failure? <==> Validation(scales).Fail?
    ensures r.Failure? ==> r.error == Validation(scales).error
    ensures r.Success? ==> r.value.Valid() && r.value.initial == 0
    ensures r.Success? ==> |r.value.scales| == |scales|
    ensures r.Success? ==> forall i :: 0 <= i < |scales| ==> scales[i] == Boxed(Num(r.value.scales[i]))
  {
    r := New(scales, 0);
  }

  /** The lookup is total: +infinity before the list, 0 after it, and a positive
      stored value in between (for a validated list, 0 means "after the list"). */
  lemma ScaleDenominatorCases(ctx: ListZoomContext, level: int)
    requires ctx.Valid()
    ensures ctx.ScaleDenominator(level) == PosInf <==> level < ctx.initial
    ensures ctx.ScaleDenominator(level) == Fin(0.0) <==> level >= ctx.initial + |ctx.scales|
    ensures ctx.initial <= level < ctx.initial + |ctx.scales| ==>
      ctx.ScaleDenominator(level) == Fin(ctx.scales[level - ctx.initial]) && ctx.scales[level - ctx.initial] > 0.0
  {
  }

  /** For a validated list the medial scale is 0 exactly when the next level lies past the list. */
  lemma MedialScaleZeroIff(ctx: ListZoomContext, level: int)
    requires ctx.Valid()
    ensures ctx.MedialScale(level) == Fin(0.0) <==> level + 1 >= ctx.initial + |ctx.scales|
  {
  }

  /** Before the list the medial scale is +infinity, unless the next level is already past the list. */
  lemma MedialScaleBeforeList(ctx: ListZoomContext, level: int)
    requires ctx.Valid()
    requires level < ctx.initial
    ensures ctx.MedialScale(level) == PosInf <==> level + 1 < ctx.initial + |ctx.scales|
  {
  }

  /** Inside the list the medial scale is the mean of a level's scale and the next one's. */
  lemma MedialScaleInList(ctx: ListZoomContext, level: int)
    requires ctx.Valid()
    requires ctx.initial <= level && level + 1 < ctx.initial + |ctx.scales|
    ensures ctx.MedialScale(level) ==
      Fin((ctx.scales[level - ctx.initial] + ctx.scales[level + 1 - ctx.initial]) / 2.0)
    ensures ctx.MedialScale(level).v > 0.0
  {
  }
}
