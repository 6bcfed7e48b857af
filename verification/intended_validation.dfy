/**
  Validation as its documentation describes it: each entry is compared with
  the previous one, so the list must strictly decrease. The code compares
  every entry with +infinity instead (ListZoom.Validation); the two differ
  on lists such as [5, 5] or [1, 5].
*/
module IntendedValidation {
  import opened Wrappers
  import opened JavaDouble
  import opened ListZoom
  import opened ZoomBands

  /** The validation loop with `last = x` at the end of each pass. */
  function ValidationUpdatingLast(s: seq<Entry>, last: Double): Outcome<ValidationError> {
    if s == [] then Pass
    else match EntryCheck(s[0], last)
      case Some(e) => Fail(e)
      case None => ValidationUpdatingLast(s[1..], s[0].value)
  }

  /** After a finite previous value `y`, the rest passes exactly when it is a strictly
      decreasing list of positive values that starts below `y`. */
  lemma {:induction false} UpdatingLastAfter(s: seq<Entry>, y: real)
    ensures ValidationUpdatingLast(s, Num(y)).Pass? <==>
      AllAcceptable(s) && StrictlyDecreasing(Unboxed(s)) && (|s| > 0 ==> Unboxed(s)[0] < y)
  {
    if s != [] {
      var x := s[0];
      if x.Boxed? && x.value.Num? && 0.0 < x.value.v < y {
        assert EntryCheck(x, Num(y)) == None;
        UpdatingLastAfter(s[1..], x.value.v);
        assert forall i :: 1 <= i < |s| ==> s[i] == s[1..][i - 1];
        if AllAcceptable(s) {
          assert Unboxed(s)[1..] == Unboxed(s[1..]);
        }
      } else {
        assert EntryCheck(x, Num(y)).Some?;
      }
    }
  }

  /** The intended check accepts exactly the strictly decreasing lists of positive values. */
  lemma UpdatingLastPassIff(s: seq<Entry>)
    ensures ValidationUpdatingLast(s, PInf).Pass? <==> AllAcceptable(s) && StrictlyDecreasing(Unboxed(s))
  {
    if s != [] {
      EntryCheckAtInfinity(s[0]);
      if Acceptable(s[0]) {
        UpdatingLastAfter(s[1..], s[0].value.v);
        assert forall i :: 1 <= i < |s| ==> s[i] == s[1..][i - 1];
        if AllAcceptable(s) {
          assert Unboxed(s)[1..] == Unboxed(s[1..]);
        }
      }
    }
  }

  /** A repeated scale: the code accepts it, the intended check reports it as not decreasing. */
  lemma RepeatedScaleAccepted()
    ensures Validation([Boxed(Num(5.0)), Boxed(Num(5.0))]) == Pass
    ensures Validation([Boxed(Num(1.0)), Boxed(Num(5.0))]) == Pass
    ensures ValidationUpdatingLast([Boxed(Num(5.0)), Boxed(Num(5.0))], PInf) == Fail(NotDecreasing)
    ensures ValidationUpdatingLast([Boxed(Num(1.0)), Boxed(Num(5.0))], PInf) == Fail(NotDecreasing)
  {
  }

  /** Every list the intended check accepts, the code accepts too. */
  lemma IntendedIsStricter(s: seq<Entry>)
    requires ValidationUpdatingLast(s, PInf).Pass?
    ensures Validation(s).Pass?
  {
  }
}
