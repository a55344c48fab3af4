/**
 * Dot gathering and the representative point: which of a remote's IR slots
 * the tracker uses, and the single point it derives from them.
 */
module Dots {
  import opened Sensor

  function PointOf(d: IrDot): Point
  {
    Point(d.x, d.y)
  }

  /** The positions of the visible slots of `s`, in slot order. */
  function VisibleDots(s: seq<IrDot>): (r: seq<Point>)
    ensures |r| <= |s|
    ensures r == [] <==> forall i :: 0 <= i < |s| ==> !s[i].visible
  {
    if s == [] then []
    else
      var last := s[|s| - 1];
      VisibleDots(s[..|s| - 1]) + (if last.visible then [PointOf(last)] else [])
  }

  /** The indices of the visible slots of `s`: exactly those, each once, increasing. */
  function VisibleIndices(s: seq<IrDot>): (idx: seq<nat>)
    ensures forall k :: 0 <= k < |idx| ==> idx[k] < |s| && s[idx[k]].visible
    ensures forall k, l :: 0 <= k < l < |idx| ==> idx[k] < idx[l]
    ensures forall i :: 0 <= i < |s| && s[i].visible ==> i in idx
  {
    if s == [] then []
    else VisibleIndices(s[..|s| - 1]) + (if s[|s| - 1].visible then [|s| - 1] else [])
  }

  /**
   * The gathered dots are the visible slots and nothing else, in increasing
   * slot order: the k-th dot is the slot at the k-th visible index.
   */
  lemma {:induction false} VisibleDotsSelect(s: seq<IrDot>)
    ensures |VisibleDots(s)| == |VisibleIndices(s)|
    ensures forall k :: 0 <= k < |VisibleDots(s)| ==>
              VisibleDots(s)[k] == PointOf(s[VisibleIndices(s)[k]])
  {
    if s != [] {
      var init := s[..|s| - 1];
      VisibleDotsSelect(init);
      forall k | 0 <= k < |VisibleIndices(init)|
        ensures s[VisibleIndices(init)[k]] == init[VisibleIndices(init)[k]]
      {
      }
    }
  }

  /**
   * The gathering loop of a position query: one pass over the four slot
   * indices, collecting the visible dots of remote 0 and, when remote 1 is
   * connected, those of remote 1.
   */
  method GatherDots(slots0: Slots, connected1: bool, slots1: Slots) returns (dots0: seq<Point>, dots1: seq<Point>)
    ensures dots0 == VisibleDots(slots0)
    ensures dots1 == if connected1 then VisibleDots(slots1) else []
  {
    dots0, dots1 := [], [];
    for index := 0 to 4
      invariant dots0 == VisibleDots(slots0[..index])
      invariant dots1 == if connected1 then VisibleDots(slots1[..index]) else []
    {
      assert slots0[..index + 1][..index] == slots0[..index];
      assert slots1[..index + 1][..index] == slots1[..index];
      if slots0[index].visible {
        dots0 := dots0 + [PointOf(slots0[index])];
      }
      if connected1 {
        if slots1[index].visible {
          dots1 := dots1 + [PointOf(slots1[index])];
        }
      }
    }
    assert slots0[..4] == slots0;
    assert slots1[..4] == slots1;
  }

  function Min(a: real, b: real): real { if a <= b then a else b }
  function Max(a: real, b: real): real { if a <= b then b else a }

  /**
   * The point that stands for a remote's dots: the mean of the first two, or
   * the lone dot. It lies in the box spanned by the dots it is made from.
   */
  function Representative(dots: seq<Point>): (p: Point)
    requires |dots| >= 1
    ensures var b := dots[if |dots| >= 2 then 1 else 0];
            && Min(dots[0].x, b.x) <= p.x <= Max(dots[0].x, b.x)
            && Min(dots[0].y, b.y) <= p.y <= Max(dots[0].y, b.y)
    ensures |dots| == 1 ==> p == dots[0]
  {
    if |dots| >= 2 then Midpoint(dots[0], dots[1])
    else dots[0]
  }

  /** Dots beyond the second never affect the representative point. */
  lemma ExtraDotsIgnored(dots: seq<Point>, more: seq<Point>)
    requires |dots| >= 2
    ensures Representative(dots + more) == Representative(dots[..2])
  {
  }
}
