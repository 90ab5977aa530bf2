/** ScaledValue<N, Dim>: a measurement of one, two or four integer components
    tagged with the DpiScaler it is expressed in and a "may be rescaled" flag.
    `ScaleTo` re-projects it onto another scaler with round-half-away-from-zero
    division; a rectangle's right and bottom edges are exclusive and are
    turned inclusive around the scaling. */
module Scaling {
  import opened CppInt
  import opened Win32
  import opened Dpi

  /** The four instantiations: ScaledDimensionX and ScaledDimensionY (N = 1,
      with an axis), ScaledPoint (N = 2) and ScaledRect (N = 4). */
  datatype Kind = DimensionX | DimensionY | Point | Rect

  function Arity(k: Kind): (n: nat)
    ensures n in {1, 2, 4}
  {
    match k
    case DimensionX => 1
    case DimensionY => 1
    case Point => 2
    case Rect => 4
  }

  /** Component `i` of a value of kind `k` is measured along the X axis:
      the axis of a 1-D value is its own, otherwise even indices are X. */
  predicate OnXAxis(k: Kind, i: nat) {
    match k
    case DimensionX => true
    case DimensionY => false
    case _ => i % 2 == 0
  }

  /** Right and bottom of a rectangle: the components that are exclusive edges. */
  predicate IsExclusiveEdge(k: Kind, i: nat) {
    k == Rect && 2 <= i
  }

  /** A value's components (an immutable copy: the arithmetic operators and
      ScaleTo return new values) and the shared scaler they are expressed in. */
  datatype ScaledValue = ScaledValue(kind: Kind, values: seq<int>, scaler: DpiScaler, rescale: bool)
  {
    /** N components, each a C++ `int`. */
    predicate Valid() {
      |values| == Arity(kind) && forall i | 0 <= i < |values| :: InInt32(values[i])
    }

    /** `SetNoRescale()`: the value passes through ScaleTo untouched from now on. */
    function SetNoRescale(): (v: ScaledValue)
      ensures !v.rescale
      ensures v.kind == kind && v.values == values && v.scaler == scaler
    {
      this.(rescale := false)
    }
  }

  /** `ScaledValue(scaler)`: every component zero, rescalable. */
  function Zero(kind: Kind, scaler: DpiScaler): (v: ScaledValue)
    ensures v.Valid() && v.kind == kind && v.scaler == scaler && v.rescale
    ensures forall i | 0 <= i < |v.values| :: v.values[i] == 0
  {
    ScaledValue(kind, seq(Arity(kind), _ => 0), scaler, true)
  }

  /** `ScaledValue(scaler, RECT)`: left, top, right, bottom in that order. */
  function FromRect(scaler: DpiScaler, r: WinRect): (v: ScaledValue)
    requires r.Valid()
    ensures v.Valid() && v.kind == Rect && v.scaler == scaler && v.rescale
    ensures ToRect(v) == r
  {
    ScaledValue(Rect, [r.left, r.top, r.right, r.bottom], scaler, true)
  }

  /** The explicit conversion back to a `RECT` that replaces the source's
      pointer interop (`operator&`). */
  function ToRect(v: ScaledValue): (r: WinRect)
    requires v.Valid() && v.kind == Rect
    ensures r.Valid()
    ensures r.left == v.values[0] && r.top == v.values[1]
    ensures r.right == v.values[2] && r.bottom == v.values[3]
  {
    WinRect(v.values[0], v.values[1], v.values[2], v.values[3])
  }

  /** `rounded_div(n, d)`: the C++ expression as written, rounding half away
      from zero with truncating division underneath. */
  function RoundedDiv(n: int, d: int): (q: int)
    requires d != 0
    ensures d > 0 && n >= 0 ==> q >= 0
    ensures d > 0 && n <= 0 ==> q <= 0
  {
    if (n < 0) != (d < 0) then Div(n - Div(d, 2), d) else Div(n + Div(d, 2), d)
  }

  /** `rounded_div` returns the integer nearest to n / d, and on a tie the one
      farther from zero (for the positive divisors ScaleTo uses). The
      negative half follows from the non-negative one by `RoundedDivNegate`. */
  lemma RoundedDivNearest(n: int, d: int)
    requires d > 0
    ensures n >= 0 ==> 2 * n - d < 2 * RoundedDiv(n, d) * d <= 2 * n + d
    ensures n < 0 ==> 2 * n - d <= 2 * RoundedDiv(n, d) * d < 2 * n + d
  {
    if n >= 0 {
      RoundedDivNearestNonNegative(n, d);
    } else {
      RoundedDivNearestNonNegative(-n, d);
      RoundedDivNegate(-n, d);
      var r := RoundedDiv(-n, d);
      assert RoundedDiv(n, d) == -r;
      assert 2 * RoundedDiv(n, d) * d == -(2 * r * d);
    }
  }

  lemma RoundedDivNearestNonNegative(n: int, d: int)
    requires n >= 0 && d > 0
    ensures 2 * n - d < 2 * RoundedDiv(n, d) * d <= 2 * n + d
  {
    var h := Div(d, 2);
    assert 2 * h == d || 2 * h == d - 1;
    var r := RoundedDiv(n, d);
    var k := r * d;
    assert 2 * r * d == 2 * k;
    assert r == Div(n + h, d);
    assert 0 <= n + h - k < d;
    if 2 * h == d - 1 {
      assert 2 * k != 2 * n - d by {
        assert (2 * k - 2 * n + d) % 2 == 1 by {
          assert 2 * k - 2 * n + d == 2 * (k - n + h) + 1;
        }
      }
    }
  }

  /** `rounded_div` is sign-correct: negating the numerator negates the result. */
  lemma RoundedDivNegate(n: int, d: int)
    requires d > 0
    ensures RoundedDiv(-n, d) == -RoundedDiv(n, d)
  {
    var h := Div(d, 2);
    if n > 0 {
      DivNegate(n + h, d);
      assert -n - h == -(n + h);
    } else if n < 0 {
      DivNegate(-n + h, d);
      assert n - h == -(-n + h);
    } else {
      DivUnique(h, d, 0);
    }
  }

  /** The worked cases: 5/2, -5/2, 4/2, 150/100 and -150/100. */
  lemma RoundedDivExamples()
    ensures RoundedDiv(5, 2) == 3 && RoundedDiv(-5, 2) == -3 && RoundedDiv(4, 2) == 2
    ensures RoundedDiv(150, 100) == 2 && RoundedDiv(-150, 100) == -2
  {
  }

  /** An exact multiple of the divisor is divided without rounding. */
  lemma RoundedDivExact(a: int, d: int)
    requires d > 0
    ensures RoundedDiv(a * d, d) == a
  {
    var h := Div(d, 2);
    if a * d >= 0 {
      DivUnique(a * d + h, d, a);
    } else {
      DivUnique(a * d - h, d, a);
    }
  }

  /** `rounded_div` cannot overflow: the numerator and its adjustment by `d / 2` are `int`s. */
  predicate RoundedDivFits(n: int, d: int) {
    InInt32(n) && InInt32(n - Div(d, 2)) && InInt32(n + Div(d, 2))
  }

  /** The per-axis ratio `other% * 100 / this%`; an unset source axis has no ratio. */
  function Ratio(fromPercent: int, toPercent: int): (r: int)
    ensures fromPercent == 0 ==> r == 0
    ensures fromPercent > 0 && toPercent >= 0 ==>
              r >= 0 && 0 <= toPercent * 100 - r * fromPercent < fromPercent
  {
    if fromPercent == 0 then 0 else Div(toPercent * 100, fromPercent)
  }

  /** Reference definition of one component after ScaleTo: multiplied by its
      axis's ratio and divided by 100 with rounding; an exclusive edge is made
      inclusive (minus one) before and exclusive again (plus one) after. */
  function ScaledComponent(k: Kind, i: nat, a: int, ratioX: int, ratioY: int): int {
    var ratio := if OnXAxis(k, i) then ratioX else ratioY;
    if IsExclusiveEdge(k, i) then RoundedDiv((a - 1) * ratio, 100) + 1
    else RoundedDiv(a * ratio, 100)
  }

  /** Every intermediate of component `i`'s computation is a C++ `int`. */
  predicate ComponentFits(k: Kind, i: nat, a: int, ratioX: int, ratioY: int) {
    var ratio := if OnXAxis(k, i) then ratioX else ratioY;
    (if IsExclusiveEdge(k, i) then InInt32(a - 1) && RoundedDivFits((a - 1) * ratio, 100)
     else RoundedDivFits(a * ratio, 100))
    && InInt32(ScaledComponent(k, i, a, ratioX, ratioY))
  }

  /** The kind's ScaleTo computes the X ratio (and so divides by the source X percent). */
  predicate UsesX(k: Kind) { k != DimensionY }
  /** The kind's ScaleTo computes the Y ratio. */
  predicate UsesY(k: Kind) { k != DimensionX }

  /** The rescaling branch of ScaleTo is defined: no division by a zero
      percent on an axis whose ratio is computed, and no `int` overflow. */
  predicate Scalable(k: Kind, vs: seq<int>, fromX: int, fromY: int, toX: int, toY: int) {
    && |vs| == Arity(k)
    && (UsesX(k) ==> fromX != 0 && InInt32(toX * 100))
    && (UsesY(k) ==> fromY != 0 && InInt32(toY * 100))
    && forall i | 0 <= i < |vs| :: ComponentFits(k, i, vs[i], Ratio(fromX, toX), Ratio(fromY, toY))
  }

  /** `v.ScaleTo(other)` is defined. */
  predicate CanScaleTo(v: ScaledValue, other: DpiScaler)
    reads v.scaler, other
  {
    && v.Valid()
    && (v.rescale && v.scaler != other ==>
          Scalable(v.kind, v.values, v.scaler.xPercent, v.scaler.yPercent, other.xPercent, other.yPercent))
  }

  /** `RectExToIn`: right and bottom become inclusive. */
  function RectExToIn(r: seq<int>): (s: seq<int>)
    requires |r| == 4
    ensures |s| == 4 && s[0] == r[0] && s[1] == r[1] && s[2] == r[2] - 1 && s[3] == r[3] - 1
  {
    r[2 := r[2] - 1][3 := r[3] - 1]
  }

  /** `RectInToEx`: right and bottom become exclusive again. */
  function RectInToEx(r: seq<int>): (s: seq<int>)
    requires |r| == 4
    ensures |s| == 4 && s[0] == r[0] && s[1] == r[1] && s[2] == r[2] + 1 && s[3] == r[3] + 1
  {
    r[2 := r[2] + 1][3 := r[3] + 1]
  }

  /** The two edge conversions undo each other. */
  lemma EdgeConversionsInverse(r: seq<int>)
    requires |r| == 4
    ensures RectInToEx(RectExToIn(r)) == r && RectExToIn(RectInToEx(r)) == r
  {
  }

  /** The `for_each` of the N-component ScaleTo: the element at running index
      `i` is multiplied by `ratios[i % 2]` and divided by 100 with rounding. */
  function ApplyRatios(vs: seq<int>, ratioX: int, ratioY: int, i: nat): (r: seq<int>)
    ensures |r| == |vs|
    ensures forall k | 0 <= k < |vs| ::
              r[k] == RoundedDiv(vs[k] * (if (i + k) % 2 == 0 then ratioX else ratioY), 100)
    decreases |vs|
  {
    if vs == [] then []
    else [RoundedDiv(vs[0] * (if i % 2 == 0 then ratioX else ratioY), 100)]
         + ApplyRatios(vs[1..], ratioX, ratioY, i + 1)
  }

  /** `v.ScaleTo(other)`. A value that may not be rescaled, or one already
      tagged with the very same scaler object, comes back unchanged (this is a
      reference comparison, not a comparison of percentages). Otherwise every
      component is re-projected and the result is tagged with `other`. */
  function ScaleTo(v: ScaledValue, other: DpiScaler): (r: ScaledValue)
    reads v.scaler, other
    requires CanScaleTo(v, other)
    ensures r.Valid()
    ensures !v.rescale || v.scaler == other ==> r == v
    ensures v.rescale && v.scaler != other ==>
              && r.kind == v.kind && r.scaler == other && r.rescale
              && |r.values| == |v.values|
              && forall i | 0 <= i < |v.values| ::
                   r.values[i] == ScaledComponent(v.kind, i, v.values[i],
                                                  Ratio(v.scaler.xPercent, other.xPercent),
                                                  Ratio(v.scaler.yPercent, other.yPercent))
  {
    if !v.rescale || v.scaler == other then v
    else
      var ratioX := Ratio(v.scaler.xPercent, other.xPercent);
      var ratioY := Ratio(v.scaler.yPercent, other.yPercent);
      match v.kind
      case DimensionX => ScaledValue(DimensionX, [RoundedDiv(v.values[0] * ratioX, 100)], other, true)
      case DimensionY => ScaledValue(DimensionY, [RoundedDiv(v.values[0] * ratioY, 100)], other, true)
      case Point => ScaledValue(Point, ApplyRatios(v.values, ratioX, ratioY, 0), other, true)
      case Rect =>
        var scaled := ApplyRatios(RectExToIn(v.values), ratioX, ratioY, 0);
        ScaledValue(Rect, RectInToEx(scaled), other, true)
  }

  /** A rescalable value can only be moved off an unset scaler if the axis it
      needs is set: a point or rectangle needs both. */
  lemma UnsetScalerRefusesScaleTo(v: ScaledValue, other: DpiScaler)
    requires v.Valid() && v.rescale && v.scaler != other
    requires v.scaler.IsUnset() && (v.kind == Point || v.kind == Rect)
    ensures !CanScaleTo(v, other)
  {
  }

  /** Percentages equal to themselves give the ratio 100. */
  lemma RatioOfSamePercent(p: int)
    requires p != 0
    ensures Ratio(p, p) == 100
  {
    if p > 0 {
      DivUnique(p * 100, p, 100);
    } else {
      assert Div(p * 100, p) == (-(p * 100)) / (-p);
      assert -(p * 100) == 100 * (-p);
    }
  }

  /** A distinct scaler with the same percentages leaves every component as
      it was (the ratio is 100 and the edge adjustment cancels); only the tag
      changes to the new scaler. */
  lemma ScaleToSameScale(v: ScaledValue, other: DpiScaler)
    requires CanScaleTo(v, other) && v.rescale && v.scaler != other
    requires v.scaler.SameScale(other)
    ensures ScaleTo(v, other).values == v.values
    ensures ScaleTo(v, other).scaler == other
  {
    var r := ScaleTo(v, other);
    forall i | 0 <= i < |v.values| ensures r.values[i] == v.values[i] {
      var onX := OnXAxis(v.kind, i);
      if onX {
        RatioOfSamePercent(v.scaler.xPercent);
      } else {
        RatioOfSamePercent(v.scaler.yPercent);
      }
      if IsExclusiveEdge(v.kind, i) {
        RoundedDivExact(v.values[i] - 1, 100);
      } else {
        RoundedDivExact(v.values[i], 100);
      }
    }
  }

  /** Scaling onto a scaler with twice the percentages and back restores
      every component exactly, rectangle edges included (96 -> 192 -> 96 DPI). */
  lemma DoublingRoundTrip(v: ScaledValue, s: DpiScaler, big: DpiScaler)
    requires v.scaler == s && s != big && v.rescale
    requires s.xPercent > 0 && s.yPercent > 0
    requires big.xPercent == 2 * s.xPercent && big.yPercent == 2 * s.yPercent
    requires CanScaleTo(v, big) && CanScaleTo(ScaleTo(v, big), s)
    ensures ScaleTo(ScaleTo(v, big), s).values == v.values
    ensures ScaleTo(ScaleTo(v, big), s).scaler == s
  {
    var up := ScaleTo(v, big);
    var down := ScaleTo(up, s);
    DoubleHalfRatios(s.xPercent);
    DoubleHalfRatios(s.yPercent);
    forall i | 0 <= i < |v.values| ensures down.values[i] == v.values[i] {
      var a := v.values[i];
      if IsExclusiveEdge(v.kind, i) {
        RoundedDivExact(2 * (a - 1), 100);
        assert (a - 1) * 200 == 2 * (a - 1) * 100;
        assert up.values[i] == 2 * (a - 1) + 1;
        RoundedDivExact(a - 1, 100);
        assert (up.values[i] - 1) * 50 == (a - 1) * 100;
      } else {
        RoundedDivExact(2 * a, 100);
        assert a * 200 == 2 * a * 100;
        assert up.values[i] == 2 * a;
        RoundedDivExact(a, 100);
        assert up.values[i] * 50 == a * 100;
      }
    }
  }

  /** Going from p to 2p percent has ratio 200; coming back has ratio 50. */
  lemma DoubleHalfRatios(p: int)
    requires p > 0
    ensures Ratio(p, 2 * p) == 200 && Ratio(2 * p, p) == 50
  {
    DivUnique(2 * p * 100, p, 200);
    DivUnique(p * 100, 2 * p, 50);
  }

  /** The ratio is truncated to whole percent, so a 100 % -> 150 % -> 100 %
      round trip is not within one unit: 1000 comes back as 990 (the way back
      uses the ratio 66, not 66.67). */
  lemma OneAndAHalfRoundTripDrifts(s: DpiScaler, mid: DpiScaler)
    requires s != mid
    requires s.xPercent == 100 && s.yPercent == 100 && mid.xPercent == 150 && mid.yPercent == 150
    ensures CanScaleTo(ScaledValue(DimensionX, [1000], s, true), mid)
    ensures ScaleTo(ScaledValue(DimensionX, [1000], s, true), mid).values == [1500]
    ensures CanScaleTo(ScaleTo(ScaledValue(DimensionX, [1000], s, true), mid), s)
    ensures ScaleTo(ScaleTo(ScaledValue(DimensionX, [1000], s, true), mid), s).values == [990]
  {
    var v := ScaledValue(DimensionX, [1000], s, true);
    assert Ratio(100, 150) == 150;
    assert Ratio(150, 100) == 66;
    assert RoundedDiv(1000 * 150, 100) == 1500;
    assert RoundedDiv(1500 * 66, 100) == 990;
  }

  /** The right-hand operand of a 1-D `+` or `-`, moved onto `s` when its own
      scaler is a different object. */
  function Aligned(b: ScaledValue, s: DpiScaler): (r: ScaledValue)
    reads b.scaler, s
    requires b.Valid() && (b.scaler != s ==> CanScaleTo(b, s))
    ensures r.Valid() && r.kind == b.kind
    ensures b.rescale ==> r.scaler == s
    ensures !b.rescale ==> r == b
  {
    if b.scaler != s then ScaleTo(b, s) else b
  }

  /** Two 1-D values of the same axis whose sum or difference can be formed. */
  predicate Combinable(a: ScaledValue, b: ScaledValue)
    reads a.scaler, b.scaler
  {
    && a.kind == b.kind && (a.kind == DimensionX || a.kind == DimensionY)
    && a.Valid() && b.Valid()
    && (b.scaler != a.scaler ==> CanScaleTo(b, a.scaler))
  }

  /** `a + b`: `b` is re-projected onto `a`'s scaler when the scalers differ,
      and the sum is a fresh rescalable value tagged with `a`'s scaler. */
  function Add(a: ScaledValue, b: ScaledValue): (r: ScaledValue)
    reads a.scaler, b.scaler
    requires Combinable(a, b)
    requires InInt32(a.values[0] + Aligned(b, a.scaler).values[0])
    ensures r.Valid() && r.kind == a.kind && r.scaler == a.scaler && r.rescale
    ensures a.scaler == b.scaler ==> r.values == [a.values[0] + b.values[0]]
  {
    ScaledValue(a.kind, [a.values[0] + Aligned(b, a.scaler).values[0]], a.scaler, true)
  }

  /** `a - b`, aligned the same way as `+`. */
  function Sub(a: ScaledValue, b: ScaledValue): (r: ScaledValue)
    reads a.scaler, b.scaler
    requires Combinable(a, b)
    requires InInt32(a.values[0] - Aligned(b, a.scaler).values[0])
    ensures r.Valid() && r.kind == a.kind && r.scaler == a.scaler && r.rescale
    ensures a.scaler == b.scaler ==> r.values == [a.values[0] - b.values[0]]
  {
    ScaledValue(a.kind, [a.values[0] - Aligned(b, a.scaler).values[0]], a.scaler, true)
  }

  /** Adding `b` and then subtracting it again, both in `a`'s scaler, gives
      back `a`'s value: the conversion of `b` is the same both times. */
  lemma SubUndoesAdd(a: ScaledValue, b: ScaledValue)
    requires Combinable(a, b)
    requires InInt32(a.values[0] + Aligned(b, a.scaler).values[0])
    ensures Combinable(Add(a, b), b)
    ensures Sub(Add(a, b), b).values == a.values
    ensures Sub(Add(a, b), b).scaler == a.scaler
  {
  }

  /** Adding a value already converted to `a`'s scaler is the same as adding
      the original: `+` converts at most once, and a non-rescalable right
      operand is added raw. */
  lemma AddConvertsRightOperand(a: ScaledValue, b: ScaledValue)
    requires Combinable(a, b)
    requires InInt32(a.values[0] + Aligned(b, a.scaler).values[0])
    ensures Combinable(a, Aligned(b, a.scaler))
    ensures Add(a, Aligned(b, a.scaler)) == Add(a, b)
    ensures !b.rescale ==> Add(a, b).values == [a.values[0] + b.values[0]]
  {
  }

  /** `RectWidth(ScaledRect)`: right minus left, as an X dimension in the rectangle's scaler. */
  function ScaledRectWidth(r: ScaledValue): (w: ScaledValue)
    requires r.Valid() && r.kind == Rect && InInt32(r.values[2] - r.values[0])
    ensures w.Valid() && w.kind == DimensionX && w.scaler == r.scaler && w.rescale
    ensures w.values[0] == RectWidth(ToRect(r)) || r.values[2] < r.values[0]
  {
    ScaledValue(DimensionX, [r.values[2] - r.values[0]], r.scaler, true)
  }

  /** `RectHeight(ScaledRect)`: bottom minus top, as a Y dimension in the rectangle's scaler. */
  function ScaledRectHeight(r: ScaledValue): (h: ScaledValue)
    requires r.Valid() && r.kind == Rect && InInt32(r.values[3] - r.values[1])
    ensures h.Valid() && h.kind == DimensionY && h.scaler == r.scaler && h.rescale
    ensures h.values[0] == RectHeight(ToRect(r)) || r.values[3] < r.values[1]
  {
    ScaledValue(DimensionY, [r.values[3] - r.values[1]], r.scaler, true)
  }

  /** As written, doubling the scale does not double a rectangle's width:
      the right edge goes to 2 * right - 1, so (0, 0, 100, 100) at 100 %
      becomes (0, 0, 199, 199) at 200 %, a width of 199. */
  lemma ScaleToRectDoublingLosesAPixel(v: ScaledValue, s: DpiScaler, big: DpiScaler)
    requires v.kind == Rect && v.scaler == s && s != big && v.rescale
    requires s.xPercent > 0 && s.yPercent > 0
    requires big.xPercent == 2 * s.xPercent && big.yPercent == 2 * s.yPercent
    requires CanScaleTo(v, big)
    ensures ScaleTo(v, big).values
              == [2 * v.values[0], 2 * v.values[1], 2 * v.values[2] - 1, 2 * v.values[3] - 1]
    ensures InInt32(v.values[2] - v.values[0]) && InInt32(ScaleTo(v, big).values[2] - ScaleTo(v, big).values[0]) ==>
              ScaledRectWidth(ScaleTo(v, big)).values[0] == 2 * ScaledRectWidth(v).values[0] - 1
  {
    var up := ScaleTo(v, big);
    DoubleHalfRatios(s.xPercent);
    DoubleHalfRatios(s.yPercent);
    forall i | 0 <= i < 4
      ensures up.values[i] == if i < 2 then 2 * v.values[i] else 2 * v.values[i] - 1
    {
      var a := v.values[i];
      if i < 2 {
        RoundedDivExact(2 * a, 100);
        assert a * 200 == 2 * a * 100;
      } else {
        RoundedDivExact(2 * (a - 1), 100);
        assert (a - 1) * 200 == 2 * (a - 1) * 100;
      }
    }
  }

  /** The 100 x 100 rectangle of the worked example, at 200 percent. */
  lemma ScaleToRectExample(s: DpiScaler, big: DpiScaler)
    requires s != big && s.xPercent == 100 && s.yPercent == 100
    requires big.xPercent == 200 && big.yPercent == 200
    ensures CanScaleTo(ScaledValue(Rect, [0, 0, 100, 100], s, true), big)
    ensures ScaleTo(ScaledValue(Rect, [0, 0, 100, 100], s, true), big).values == [0, 0, 199, 199]
  {
    var v := ScaledValue(Rect, [0, 0, 100, 100], s, true);
    assert Ratio(100, 200) == 200;
    assert RoundedDiv(99 * 200, 100) == 198;
    assert RoundedDiv(0 * 200, 100) == 0;
    assert Scalable(Rect, v.values, 100, 100, 200, 200);
    ScaleToRectDoublingLosesAPixel(v, s, big);
  }

  /** Corrected rectangle re-projection: the exclusive right and bottom edges
      are scaled as the coordinates they are, like left and top, so the
      width scales with the content instead of with the last pixel. */
  function ScaleRectEdges(v: ScaledValue, other: DpiScaler): (r: ScaledValue)
    reads v.scaler, other
    requires CanScaleRectEdges(v, other)
    ensures r.Valid() && r.kind == Rect
    ensures !v.rescale || v.scaler == other ==> r == v
    ensures v.rescale && v.scaler != other ==>
              && r.scaler == other && r.rescale
              && forall i | 0 <= i < 4 ::
                   r.values[i] == ScaledComponent(Point, i, v.values[i],
                                                  Ratio(v.scaler.xPercent, other.xPercent),
                                                  Ratio(v.scaler.yPercent, other.yPercent))
  {
    if !v.rescale || v.scaler == other then v
    else
      var ratioX := Ratio(v.scaler.xPercent, other.xPercent);
      var ratioY := Ratio(v.scaler.yPercent, other.yPercent);
      ScaledValue(Rect, ApplyRatios(v.values, ratioX, ratioY, 0), other, true)
  }

  /** `ScaleRectEdges` is defined: both source percents set, no overflow. */
  predicate CanScaleRectEdges(v: ScaledValue, other: DpiScaler)
    reads v.scaler, other
  {
    && v.Valid() && v.kind == Rect
    && (v.rescale && v.scaler != other ==>
          && v.scaler.xPercent != 0 && v.scaler.yPercent != 0
          && InInt32(other.xPercent * 100) && InInt32(other.yPercent * 100)
          && forall i | 0 <= i < 4 ::
               ComponentFits(Point, i, v.values[i],
                             Ratio(v.scaler.xPercent, other.xPercent),
                             Ratio(v.scaler.yPercent, other.yPercent)))
  }

  /** With the corrected re-projection, doubling the scale doubles the width
      and the height exactly: (0, 0, 100, 100) becomes (0, 0, 200, 200). */
  lemma ScaleRectEdgesDoublesSize(v: ScaledValue, s: DpiScaler, big: DpiScaler)
    requires v.kind == Rect && v.scaler == s && s != big && v.rescale
    requires s.xPercent > 0 && s.yPercent > 0
    requires big.xPercent == 2 * s.xPercent && big.yPercent == 2 * s.yPercent
    requires CanScaleRectEdges(v, big)
    ensures ScaleRectEdges(v, big).values
              == [2 * v.values[0], 2 * v.values[1], 2 * v.values[2], 2 * v.values[3]]
    ensures ScaleRectEdges(v, big).values[2] - ScaleRectEdges(v, big).values[0]
              == 2 * (v.values[2] - v.values[0])
    ensures ScaleRectEdges(v, big).values[3] - ScaleRectEdges(v, big).values[1]
              == 2 * (v.values[3] - v.values[1])
  {
    var up := ScaleRectEdges(v, big);
    DoubleHalfRatios(s.xPercent);
    DoubleHalfRatios(s.yPercent);
    forall i | 0 <= i < 4 ensures up.values[i] == 2 * v.values[i] {
      var a := v.values[i];
      RoundedDivExact(2 * a, 100);
      assert a * 200 == 2 * a * 100;
    }
  }

  /** The corrected re-projection keeps the identity property: a distinct
      scaler with equal percentages leaves every edge where it was. */
  lemma ScaleRectEdgesSameScale(v: ScaledValue, other: DpiScaler)
    requires CanScaleRectEdges(v, other) && v.rescale && v.scaler != other
    requires v.scaler.SameScale(other)
    ensures ScaleRectEdges(v, other).values == v.values
  {
    var r := ScaleRectEdges(v, other);
    RatioOfSamePercent(v.scaler.xPercent);
    RatioOfSamePercent(v.scaler.yPercent);
    forall i | 0 <= i < 4 ensures r.values[i] == v.values[i] {
      RoundedDivExact(v.values[i], 100);
    }
  }
}
