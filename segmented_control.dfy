/** The segmented control's sliding indicator. Each segment reports its laid-out width into a
    sparse list (a segment that has not reported yet is a hole); whenever the list or the selected
    index changes, and the list is not empty, the indicator is moved to the sum of the widths before
    the selected segment and resized to that segment's width. Arithmetic follows JavaScript: a hole
    or a missing entry reads as `undefined`, and adding it gives `NaN`. */
module SegmentedControl {
  import opened Common

  /** A JavaScript value of the kinds this code can produce. */
  datatype JsValue = Num(x: real) | NaN | Undefined

  /** `widths[i]`. */
  function Lookup(widths: seq<Option<real>>, i: int): (v: JsValue)
    ensures v.Num? <==> 0 <= i < |widths| && widths[i].Some?
    ensures v.Num? ==> v.x == widths[i].value
    ensures !v.Num? ==> v == Undefined
  {
    if 0 <= i < |widths| && widths[i].Some? then Num(widths[i].value) else Undefined
  }

  /** JavaScript `+` on the values above: a number only when both sides are numbers. */
  function Plus(a: JsValue, b: JsValue): (r: JsValue)
    ensures r.Num? <==> a.Num? && b.Num?
    ensures r.Num? ==> r.x == a.x + b.x
    ensures !r.Num? ==> r == NaN
  {
    if a.Num? && b.Num? then Num(a.x + b.x) else NaN
  }

  /** The offset of segment `k`: the JavaScript sum of the first `k` entries. */
  function Offset(widths: seq<Option<real>>, k: nat): JsValue
  {
    if k == 0 then Num(0.0) else Plus(Offset(widths, k - 1), Lookup(widths, k - 1))
  }

  /** The first `k` entries all exist and have been reported. */
  predicate ReportedBelow(widths: seq<Option<real>>, k: nat)
  {
    k <= |widths| && forall i :: 0 <= i < k ==> widths[i].Some?
  }

  /** The plain sum of the first `k` reported widths. */
  function SumBelow(widths: seq<Option<real>>, k: nat): real
    requires ReportedBelow(widths, k)
  {
    if k == 0 then 0.0 else SumBelow(widths, k - 1) + widths[k - 1].value
  }

  /** The offset is a number exactly when every width before the segment is known, and then it is
      their sum; any hole or missing entry before it makes it `NaN`. */
  lemma {:induction false} OffsetIsSum(widths: seq<Option<real>>, k: nat)
    ensures Offset(widths, k).Num? <==> ReportedBelow(widths, k)
    ensures ReportedBelow(widths, k) ==> Offset(widths, k) == Num(SumBelow(widths, k))
    ensures !ReportedBelow(widths, k) ==> Offset(widths, k) == NaN
  {
    if k > 0 {
      OffsetIsSum(widths, k - 1);
      if ReportedBelow(widths, k) {
        assert ReportedBelow(widths, k - 1);
      } else if ReportedBelow(widths, k - 1) {
        assert !(k - 1 < |widths| && widths[k - 1].Some?);
      }
    }
  }

  /** The first segment's offset is 0 whatever the widths. */
  lemma FirstOffsetIsZero(widths: seq<Option<real>>)
    ensures Offset(widths, 0) == Num(0.0)
  {
  }

  predicate NonNegativeWidths(widths: seq<Option<real>>)
  {
    forall i :: 0 <= i < |widths| && widths[i].Some? ==> widths[i].value >= 0.0
  }

  /** With non-negative widths, a later segment never sits to the left of an earlier one. */
  lemma {:induction false} OffsetMonotone(widths: seq<Option<real>>, j: nat, k: nat)
    requires NonNegativeWidths(widths)
    requires j <= k && ReportedBelow(widths, k)
    ensures Offset(widths, j).Num? && Offset(widths, k).Num?
    ensures Offset(widths, j).x <= Offset(widths, k).x
    decreases k
  {
    OffsetIsSum(widths, j);
    OffsetIsSum(widths, k);
    if j < k {
      assert ReportedBelow(widths, k - 1);
      OffsetMonotone(widths, j, k - 1);
      OffsetIsSum(widths, k - 1);
      assert widths[k - 1].value >= 0.0;
    }
  }

  /** The index the effect's loop runs up to: it does not run for a negative index. */
  function LoopBound(selectedIndex: int): (n: nat)
    ensures selectedIndex >= 0 ==> n == selectedIndex
    ensures selectedIndex < 0 ==> n == 0
  {
    if selectedIndex < 0 then 0 else selectedIndex
  }

  /** `handleLayout(index, w)`'s new list: entry `index` becomes `w`, every other entry is kept, and a
      list too short for `index` is padded with holes. */
  function WithWidth(widths: seq<Option<real>>, index: nat, w: real): (r: seq<Option<real>>)
    ensures |r| == if index < |widths| then |widths| else index + 1
    ensures r[index] == Some(w)
    ensures forall j :: 0 <= j < |widths| && j != index ==> r[j] == widths[j]
    ensures forall j :: |widths| <= j < |r| && j != index ==> r[j] == None
  {
    if index < |widths| then widths[index := Some(w)]
    else widths + seq(index - |widths|, _ => None) + [Some(w)]
  }

  /** Reporting the same width twice changes nothing the second time. */
  lemma WithWidthIdempotent(widths: seq<Option<real>>, index: nat, w: real)
    ensures WithWidth(WithWidth(widths, index, w), index, w) == WithWidth(widths, index, w)
  {
  }

  /** Once every segment up to `k` has reported, later reports of other segments keep the offset
      of segment `k` a number. */
  lemma LayoutKeepsReported(widths: seq<Option<real>>, k: nat, index: nat, w: real)
    requires ReportedBelow(widths, k)
    ensures ReportedBelow(WithWidth(widths, index, w), k)
  {
  }

  /** The control's state: the width list and the two animated values it drives. */
  class SegmentedControlView {
    var selectedIndex: int
    var segmentWidths: seq<Option<real>>
    var translateX: JsValue
    var segmentWidth: JsValue

    constructor (selectedIndex: int)
      ensures this.selectedIndex == selectedIndex
      ensures segmentWidths == [] && translateX == Num(0.0) && segmentWidth == Num(0.0)
    {
      this.selectedIndex := selectedIndex;
      segmentWidths := [];
      translateX := Num(0.0);
      segmentWidth := Num(0.0);
    }

    /** The effect on `[selectedIndex, segmentWidths]`; the timing animation is taken at its end value. */
    method MoveIndicator()
      modifies this
      ensures selectedIndex == old(selectedIndex) && segmentWidths == old(segmentWidths)
      ensures segmentWidths == [] ==> translateX == old(translateX) && segmentWidth == old(segmentWidth)
      ensures segmentWidths != [] ==>
        translateX == Offset(segmentWidths, LoopBound(selectedIndex)) && segmentWidth == Lookup(segmentWidths, selectedIndex)
    {
      if |segmentWidths| > 0 {
        var position := Num(0.0);
        var i := 0;
        while i < selectedIndex
          invariant 0 <= i <= LoopBound(selectedIndex)
          invariant position == Offset(segmentWidths, i)
        {
          position := Plus(position, Lookup(segmentWidths, i));
          i := i + 1;
        }
        translateX := position;
        segmentWidth := Lookup(segmentWidths, selectedIndex);
      }
    }

    /** A new selection from the parent, followed by the effect. */
    method Select(index: int)
      modifies this
      ensures selectedIndex == index && segmentWidths == old(segmentWidths)
      ensures segmentWidths == [] ==> translateX == old(translateX) && segmentWidth == old(segmentWidth)
      ensures segmentWidths != [] ==>
        translateX == Offset(segmentWidths, LoopBound(index)) && segmentWidth == Lookup(segmentWidths, index)
    {
      selectedIndex := index;
      MoveIndicator();
    }

    /** `handleLayout(index, event)` with the reported width, followed by the effect (the list is
        always a fresh, non-empty one). */
    method HandleLayout(index: nat, w: real)
      modifies this
      ensures segmentWidths == WithWidth(old(segmentWidths), index, w) && selectedIndex == old(selectedIndex)
      ensures translateX == Offset(segmentWidths, LoopBound(selectedIndex))
      ensures segmentWidth == Lookup(segmentWidths, selectedIndex)
    {
      segmentWidths := WithWidth(segmentWidths, index, w);
      MoveIndicator();
    }
  }
}
