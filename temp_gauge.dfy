/** A semicircular temperature gauge: the mapping of a temperature onto the
    dial, the tick marks, the needle colour, the proportional layout and the
    validate-then-apply update of the one stored temperature. */
module TempGauge {
  import opened Wrappers

  // ----- Temperature range -----

  const MinValue: int := 0
  const MaxValue: int := 100
  const NormalMin: int := 20
  const NormalMax: int := 30

  /** The temperature the gauge shows before any input. */
  const InitialValue: real := 25.0

  // ----- Layout and design -----

  const GaugeVerticalOffset: real := 0.65
  const GaugeSizeRatio: int := 3
  const TickInterval: int := 20
  const NeedleMargin: int := 25

  /** The angles, in the trigonometric sense of the tick and needle formulas,
      that the temperature range is swept over. */
  const SweepStart: real := 180.0
  const SweepEnd: real := 360.0

  // ----- Colours -----

  const ColourNeedleCold: string := "#0077b6"
  const ColourNeedleNormal: string := "#2d6a4f"
  const ColourNeedleHot: string := "#d90429"

  const ErrorMessage: string := "Enter a number between 0\U{2013}100!"

  predicate InRange(v: real) {
    MinValue as real <= v <= MaxValue as real
  }

  // ----- Value to angle -----

  /** The angle, in degrees, at which temperature `v` sits on the dial. */
  function Angle(v: real): (a: real)
    ensures v == MinValue as real ==> a == SweepStart
    ensures v == MaxValue as real ==> a == SweepEnd
    ensures InRange(v) <==> SweepStart <= a <= SweepEnd
  {
    180.0 + (v - MinValue as real) * 180.0 / (MaxValue - MinValue) as real
  }

  /** Reading the dial back: the temperature a given angle stands for. */
  function ValueAtAngle(a: real): real {
    MinValue as real + (a - 180.0) * (MaxValue - MinValue) as real / 180.0
  }

  lemma AngleRoundTrip(v: real, a: real)
    ensures ValueAtAngle(Angle(v)) == v
    ensures Angle(ValueAtAngle(a)) == a
  {
  }

  lemma AngleStrictlyIncreasing(v: real, w: real)
    requires v < w
    ensures Angle(v) < Angle(w)
  {
  }

  // ----- Ticks -----

  /** Python's `range(start, stop, step)` for a positive step. */
  function Range(start: int, stop: int, step: int): (r: seq<int>)
    requires step > 0
    ensures forall i :: 0 <= i < |r| ==> r[i] == start + i * step && r[i] < stop
    ensures start + |r| * step >= stop
    decreases stop - start
  {
    if start >= stop then []
    else
      var rest := Range(start + step, stop, step);
      assert start + |rest| * step + step == start + (|rest| + 1) * step;
      assert forall i :: 1 <= i <= |rest| ==> start + step + (i - 1) * step == start + i * step;
      [start] + rest
  }

  lemma RangeStep(start: int, stop: int, step: int)
    requires step > 0 && start < stop
    ensures Range(start, stop, step) == [start] + Range(start + step, stop, step)
  {
  }

  /** The labelled tick values of the dial: from MinValue up to MaxValue in steps of TickInterval. */
  function TickValues(): (r: seq<int>)
    ensures |r| > 0 && r[0] == MinValue
    ensures forall i :: 0 < i < |r| ==> r[i] == r[i - 1] + TickInterval
    ensures forall i :: 0 <= i < |r| ==> r[i] <= MaxValue
  {
    Range(MinValue, MaxValue + 1, TickInterval)
  }

  lemma TickValuesExact()
    ensures TickValues() == [0, 20, 40, 60, 80, 100]
  {
    RangeStep(0, 101, 20);
    RangeStep(20, 101, 20);
    RangeStep(40, 101, 20);
    RangeStep(60, 101, 20);
    RangeStep(80, 101, 20);
    RangeStep(100, 101, 20);
    assert Range(120, 101, 20) == [];
  }

  /** A tick mark: its label and the angle at which it is drawn. */
  datatype Tick = Tick(temperature: int, angle: real)

  /** The tick drawn for temperature `t`. */
  function TickAt(t: int): (k: Tick)
    ensures k.temperature == t
    ensures MinValue <= t <= MaxValue <==> SweepStart <= k.angle <= SweepEnd
  {
    Tick(t, Angle(t as real))
  }

  /** The tick marks drawn by the loop over `range(start, stop, step)`, one per value. */
  method DrawTicks(start: int, stop: int, step: int) returns (ticks: seq<Tick>)
    requires step > 0
    ensures |ticks| == |Range(start, stop, step)|
    ensures forall i :: 0 <= i < |ticks| ==> ticks[i] == TickAt(Range(start, stop, step)[i])
  {
    ticks := [];
    ghost var drawn: seq<int> := [];
    var v := start;
    while v < stop
      invariant drawn + Range(v, stop, step) == Range(start, stop, step)
      invariant |ticks| == |drawn|
      invariant forall i :: 0 <= i < |ticks| ==> ticks[i] == TickAt(drawn[i])
      decreases stop - v
    {
      RangeStep(v, stop, step);
      ticks := ticks + [TickAt(v)];
      drawn := drawn + [v];
      v := v + step;
    }
  }

  /** The ticks drawn for the tick values are exactly these six, in this order. */
  lemma TicksExact(ticks: seq<Tick>)
    requires |ticks| == |TickValues()|
    requires forall i :: 0 <= i < |ticks| ==> ticks[i] == TickAt(TickValues()[i])
    ensures ticks == [Tick(0, 180.0), Tick(20, 216.0), Tick(40, 252.0),
                      Tick(60, 288.0), Tick(80, 324.0), Tick(100, 360.0)]
  {
    TickValuesExact();
    var expected := [Tick(0, 180.0), Tick(20, 216.0), Tick(40, 252.0),
                     Tick(60, 288.0), Tick(80, 324.0), Tick(100, 360.0)];
    forall i | 0 <= i < 6
      ensures ticks[i] == expected[i]
    {
      assert ticks[i] == TickAt([0, 20, 40, 60, 80, 100][i]);
    }
  }

  // ----- Needle colour -----

  datatype NeedleColour = Cold | Normal | Hot

  /** The needle and readout colour of temperature `v`. */
  function Classify(v: real): (c: NeedleColour)
    ensures c == Cold <==> v < NormalMin as real
    ensures c == Hot <==> v > NormalMax as real
    ensures c == Normal <==> NormalMin as real <= v <= NormalMax as real
  {
    if v < NormalMin as real then Cold
    else if v > NormalMax as real then Hot
    else Normal
  }

  function Rank(c: NeedleColour): nat {
    match c
    case Cold => 0
    case Normal => 1
    case Hot => 2
  }

  lemma ClassifyMonotone(v: real, w: real)
    requires v <= w
    ensures Rank(Classify(v)) <= Rank(Classify(w))
  {
  }

  function ColourCode(c: NeedleColour): (code: string)
    ensures |code| == 7 && code[0] == '#'
    ensures forall i :: 1 <= i < 7 ==> code[i] in "0123456789abcdef"
  {
    match c
    case Cold => ColourNeedleCold
    case Normal => ColourNeedleNormal
    case Hot => ColourNeedleHot
  }

  lemma ColourCodesDistinct(c: NeedleColour, d: NeedleColour)
    requires c != d
    ensures ColourCode(c) != ColourCode(d)
  {
  }

  // ----- Layout -----

  datatype Layout = Layout(centerX: real, centerY: real, radius: real, needleLength: real)

  function Min(a: int, b: int): int {
    if a <= b then a else b
  }

  /** The geometry of the gauge in a canvas of `width` by `height` pixels. */
  function GaugeLayout(width: int, height: int): (l: Layout)
    ensures 2.0 * l.centerX == width as real
    ensures l.centerY == GaugeVerticalOffset * height as real
    ensures 3.0 * l.radius == width as real || 3.0 * l.radius == height as real
    ensures 3.0 * l.radius <= width as real && 3.0 * l.radius <= height as real
    ensures l.needleLength + NeedleMargin as real == l.radius
  {
    var radius := Min(width, height) as real / GaugeSizeRatio as real;
    Layout(width as real / 2.0, height as real * GaugeVerticalOffset, radius,
           radius - NeedleMargin as real)
  }

  /** In a canvas of positive size the whole dial circle lies inside the canvas. */
  lemma GaugeFitsCanvas(width: int, height: int)
    requires width > 0 && height > 0
    ensures var l := GaugeLayout(width, height);
      && 0.0 < l.centerX - l.radius && l.centerX + l.radius < width as real
      && 0.0 < l.centerY - l.radius && l.centerY + l.radius < height as real
  {
  }

  lemma MinScales(a: int, b: int, k: nat)
    ensures Min(k * a, k * b) == k * Min(a, b)
  {

  }

  /** Resizing the canvas by a factor `k` scales the centre and the radius by `k`. */
  lemma LayoutScales(width: int, height: int, k: nat)
    ensures var l, m := GaugeLayout(width, height), GaugeLayout(k * width, k * height);
      && m.centerX == k as real * l.centerX
      && m.centerY == k as real * l.centerY
      && m.radius == k as real * l.radius
  {

  }

  // ----- Directions on the screen -----

  /** `d` brought into [0, 360) by whole turns. */
  function Normalize(d: real): (r: real)
    ensures 0.0 <= r < 360.0
    ensures (d - r) / 360.0 == ((d - r) / 360.0).Floor as real
  {
    d - 360.0 * (d / 360.0).Floor as real
  }

  lemma NormalizeBy(d: real, k: int)
    requires 0.0 <= d - 360.0 * k as real < 360.0
    ensures Normalize(d) == d - 360.0 * k as real
  {
    assert (d / 360.0).Floor == k;
  }

  /** The direction, in Tk's convention (degrees counter-clockwise from 3 o'clock
      as seen on the screen), of the point at `(cx + r*cos(theta), cy + r*sin(theta))`.
      The canvas y axis points down, so the formula turns clockwise on the screen
      as `theta` grows: the point lies in direction -theta. */
  function ScreenDirection(theta: real): (dir: real)
    ensures 0.0 <= dir < 360.0
    ensures SweepStart <= theta <= SweepEnd ==> dir == 360.0 - theta
  {
    if SweepStart <= theta <= SweepEnd then
      NormalizeBy(360.0 - theta, 0);
      Normalize(360.0 - theta)
    else
      Normalize(360.0 - theta)
  }

  /** An arc as Tk's `create_arc` takes it: from `start` over `extent` degrees,
      counter-clockwise for a positive extent and clockwise for a negative one. */
  datatype Arc = Arc(start: real, extent: real)

  /** Direction `dir` lies on `arc`: its offset from the start, taken modulo a
      whole turn in the arc's own sense of rotation, is at most the size of the extent. */
  function OnArc(arc: Arc, dir: real): (b: bool)
    requires -360.0 <= arc.extent <= 360.0
    ensures arc.extent == 360.0 || arc.extent == -360.0 ==> b
    ensures 0.0 <= arc.extent && 0.0 <= dir - arc.start <= arc.extent ==> b
    ensures 0.0 <= arc.extent < dir - arc.start < 360.0 ==> !b
    ensures arc.extent < 0.0 && arc.extent <= dir - arc.start <= 0.0 ==> b
    ensures -360.0 < dir - arc.start < arc.extent < 0.0 ==> !b
  {
    var d := dir - arc.start;
    if 0.0 <= arc.extent then
      if 0.0 <= d < 360.0 then
        NormalizeBy(d, 0);
        Normalize(d) <= arc.extent
      else
        Normalize(d) <= arc.extent
    else
      if 0.0 <= -d < 360.0 then
        NormalizeBy(-d, 0);
        Normalize(-d) <= -arc.extent
      else
        Normalize(-d) <= -arc.extent
  }

  /** Turning an offset round to the other side of an arc of size `e` keeps it within the arc. */
  lemma NormalizeReflect(x: real, e: real)
    requires 0.0 < e <= 360.0
    ensures Normalize(-x) <= e <==> Normalize(x + e) <= e
  {
    var y := Normalize(-x);
    var k1 := ((-x - y) / 360.0).Floor;
    assert -x - y == 360.0 * k1 as real;
    var z := Normalize(x + e);
    var k2 := ((x + e - z) / 360.0).Floor;
    assert x + e - z == 360.0 * k2 as real;
    if y <= e {
      if e - y < 360.0 {
        NormalizeBy(x + e, -k1);
      } else {
        NormalizeBy(x + e, 1 - k1);
      }
    }
    if z <= e {
      if e - z < 360.0 {
        NormalizeBy(-x, -k2);
      } else {
        NormalizeBy(-x, 1 - k2);
      }
    }
  }

  /** A clockwise arc covers the same directions as the counter-clockwise arc of
      the same size that ends where the clockwise one starts. */
  lemma ClockwiseArcReversed(start: real, extent: real, dir: real)
    requires 0.0 < extent <= 360.0
    ensures OnArc(Arc(start, -extent), dir) <==> OnArc(Arc(start - extent, extent), dir)
  {
    assert dir - (start - extent) == (dir - start) + extent;
    NormalizeReflect(dir - start, extent);
  }

  /** The arc as the source draws it: the lower half of the dial circle. */
  const ArcAsWritten: Arc := Arc(180.0, 180.0)

  /** The arc on the half of the circle where the ticks and the needle are placed:
      the upper half, above the centre, with the readout below it. */
  const ArcIntended: Arc := Arc(0.0, 180.0)

  /** As written, the needle of an in-range temperature meets the drawn arc only
      at the two ends of the range. */
  lemma NeedleOffArcAsWritten(v: real)
    requires InRange(v)
    ensures OnArc(ArcAsWritten, ScreenDirection(Angle(v))) <==> v == MinValue as real || v == MaxValue as real
  {

  }

  /** At 50 degrees Celsius the needle points straight up, away from the drawn arc. */
  lemma HalfwayNeedleOffArcAsWritten()
    ensures ScreenDirection(Angle(50.0)) == 90.0
    ensures !OnArc(ArcAsWritten, ScreenDirection(Angle(50.0)))
  {

  }

  /** On the intended arc, every in-range temperature has its needle and ticks on the arc. */
  lemma SweepOnIntendedArc(theta: real)
    requires SweepStart <= theta <= SweepEnd
    ensures OnArc(ArcIntended, ScreenDirection(theta))
  {

  }

  /** As written, of the ticks drawn for the tick values only the first (0) and
      the last (100) lie on the drawn arc. */
  lemma TicksOffArcAsWritten(ticks: seq<Tick>)
    requires |ticks| == |TickValues()|
    requires forall i :: 0 <= i < |ticks| ==> ticks[i] == TickAt(TickValues()[i])
    ensures forall i :: 0 <= i < |ticks| ==>
      (OnArc(ArcAsWritten, ScreenDirection(ticks[i].angle)) <==> i == 0 || i == |ticks| - 1)
  {
    TickValuesExact();
    forall i | 0 <= i < |ticks|
      ensures OnArc(ArcAsWritten, ScreenDirection(ticks[i].angle)) <==> i == 0 || i == |ticks| - 1
    {
      var t := [0, 20, 40, 60, 80, 100][i];
      assert ticks[i] == TickAt(t);
      NeedleOffArcAsWritten(t as real);
    }
  }

  /** With the intended arc, every tick drawn for the tick values lies on the arc. */
  lemma TicksOnIntendedArc(ticks: seq<Tick>)
    requires |ticks| == |TickValues()|
    requires forall i :: 0 <= i < |ticks| ==> ticks[i] == TickAt(TickValues()[i])
    ensures forall i :: 0 <= i < |ticks| ==> OnArc(ArcIntended, ScreenDirection(ticks[i].angle))
  {

  }

  // ----- What is drawn -----

  /** The drawable content of the gauge: geometry, the arc, the ticks and the needle. */
  datatype Scene = Scene(layout: Layout, arc: Arc, ticks: seq<Tick>, needleAngle: real, colour: NeedleColour)

  /** What the canvas shows after an update. */
  datatype Display =
    | Gauge(scene: Scene)
    | Error(x: real, y: real, text: string, colourCode: string)

  /** `scene` is the gauge for temperature `value` in a `width` by `height` canvas. */
  ghost predicate Depicts(scene: Scene, value: real, width: int, height: int) {
    && scene.layout == GaugeLayout(width, height)
    && scene.arc == ArcAsWritten
    && |scene.ticks| == |TickValues()|
    && (forall i :: 0 <= i < |scene.ticks| ==>
          scene.ticks[i] == TickAt(TickValues()[i]))
    && scene.needleAngle == Angle(value)
    && scene.colour == Classify(value)
  }

  // ----- Validation -----

  /** The number an update accepts: a parsed number within the range. */
  function Validate(parsed: Option<real>): (r: Option<real>)
    ensures r.Some? <==> parsed.Some? && InRange(parsed.value)
    ensures r.Some? ==> r == parsed
  {
    match parsed
    case None => None
    case Some(v) => if v < MinValue as real || v > MaxValue as real then None else Some(v)
  }

  /** The stored temperature after one update with `parsed`. */
  function NextValue(current: real, parsed: Option<real>): (v: real)
    ensures parsed.Some? && InRange(parsed.value) ==> v == parsed.value
    ensures !(parsed.Some? && InRange(parsed.value)) ==> v == current
    ensures InRange(current) ==> InRange(v)
  {
    match Validate(parsed)
    case None => current
    case Some(accepted) => accepted
  }

  /** Accepting "25" and "100", rejecting "-5" and "abc". */
  lemma UpdateExamples(current: real)
    ensures NextValue(current, Some(25.0)) == 25.0
      && Classify(25.0) == Normal && Angle(25.0) == 225.0
    ensures NextValue(current, Some(-5.0)) == current
    ensures NextValue(current, None) == current
    ensures NextValue(current, Some(100.0)) == 100.0
      && Classify(100.0) == Hot && Angle(100.0) == 360.0
    ensures NextValue(current, Some(0.0)) == 0.0
  {
  }

  /** The stored temperature after a sequence of updates. */
  function ValueAfter(start: real, inputs: seq<Option<real>>): real
    decreases |inputs|
  {
    if inputs == [] then start
    else ValueAfter(NextValue(start, inputs[0]), inputs[1..])
  }

  lemma {:induction false} ValueAfterStaysInRange(start: real, inputs: seq<Option<real>>)
    requires InRange(start)
    ensures InRange(ValueAfter(start, inputs))
    decreases |inputs|
  {
    if inputs != [] {
      ValueAfterStaysInRange(NextValue(start, inputs[0]), inputs[1..]);
    }
  }

  lemma {:induction false} ValueAfterIsStartOrInput(start: real, inputs: seq<Option<real>>)
    ensures var v := ValueAfter(start, inputs);
      v == start || (Some(v) in inputs && InRange(v))
    decreases |inputs|
  {
    if inputs != [] {
      ValueAfterIsStartOrInput(NextValue(start, inputs[0]), inputs[1..]);
    }
  }

  // ----- The application -----

  class GaugeApp {
    var value: real

    ghost predicate Valid()
      reads this
    {
      InRange(value)
    }

    constructor ()
      ensures value == InitialValue && Valid()
    {
      value := InitialValue;
    }

    /** Draws the gauge for the current temperature in a `width` by `height` canvas. */
    method DrawGauge(width: int, height: int) returns (scene: Scene)
      ensures Depicts(scene, value, width, height)
      ensures InRange(value) ==>
        (OnArc(scene.arc, ScreenDirection(scene.needleAngle)) <==> value == MinValue as real || value == MaxValue as real)
      ensures forall i :: 0 <= i < |scene.ticks| ==>
        (OnArc(scene.arc, ScreenDirection(scene.ticks[i].angle)) <==> i == 0 || i == |scene.ticks| - 1)
    {
      var layout := GaugeLayout(width, height);
      var ticks := DrawTicks(MinValue, MaxValue + 1, TickInterval);
      scene := Scene(layout, ArcAsWritten, ticks, Angle(value), Classify(value));
      if InRange(value) {
        NeedleOffArcAsWritten(value);
      }
      TicksOffArcAsWritten(ticks);
    }

    /** Applies a parsed entry: an in-range number is stored and drawn, anything
        else leaves the temperature unchanged and shows the error message. */
    method UpdateValue(parsed: Option<real>, width: int, height: int) returns (shown: Display)
      modifies this
      ensures value == NextValue(old(value), parsed)
      ensures old(Valid()) ==> Valid()
      ensures shown.Gauge? <==> Validate(parsed).Some?
      ensures shown.Gauge? ==> value == parsed.value && Depicts(shown.scene, value, width, height)
      ensures shown.Error? ==>
        value == old(value) && shown == Error(width as real / 2.0, height as real / 2.0, ErrorMessage, ColourCode(Hot))
    {
      match parsed {
        case Some(v) =>
          if v < MinValue as real || v > MaxValue as real {
            shown := Error(width as real / 2.0, height as real / 2.0, ErrorMessage, ColourNeedleHot);
          } else {
            value := v;
            var scene := DrawGauge(width, height);
            shown := Gauge(scene);
          }
        case None =>
          shown := Error(width as real / 2.0, height as real / 2.0, ErrorMessage, ColourNeedleHot);
      }
    }
  }
}
