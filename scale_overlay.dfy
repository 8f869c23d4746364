/**
 * The geometry behind the scale-overlay tool: from the visible world extent
 * and the canvas size it picks a round physical length for the bar, formats
 * its label, places the bar centred on the canvas inside a margin, and
 * builds the two end ticks and the interior ruler ticks (a long tick every
 * fifth). Points are in canvas pixels except the world corners.
 *
 * The host's `worldToCanvas` projection is not modelled: the two projected
 * end points of the bar are an input of `ComputeCanvasScaleCoordinates`.
 */
module ScaleOverlay {
  import opened Wrappers
  import Strings

  /** The configured `scaleLocation`; any other string is `Unrecognised`. */
  datatype Location = Top | Bottom | Left | Right | Unrecognised

  datatype Point2 = Point2(x: real, y: real)
  datatype Point3 = Point3(x: real, y: real, z: real)

  /** A line drawn on the canvas, written `[[x, y], [x, y]]` by the tool. */
  datatype Segment = Segment(start: Point2, end: Point2)

  /** The four world-space corners of the visible image, in the order the annotation stores them. */
  datatype Corners = Corners(topLeft: Point3, topRight: Point3, bottomLeft: Point3, bottomRight: Point3)

  datatype CanvasSize = CanvasSize(width: real, height: real)
  datatype ScaleBounds = ScaleBounds(height: real, width: real)
  datatype EndTicks = EndTicks(endTick1: Segment, endTick2: Segment)

  function Abs(r: real): real { if r < 0.0 then -r else r }
  function Min(a: real, b: real): real { if a <= b then a else b }

  /** The placements whose bar runs along the x axis. */
  predicate Horizontal(location: Location) { location == Top || location == Bottom }

  // ---------------------------------------------------------------------
  // Visible world extent

  /** `worldWidthViewport`: the x distance between the two bottom corners. */
  function WorldWidth(corners: Corners): (w: real)
    ensures w >= 0.0
  {
    Abs(corners.bottomLeft.x - corners.bottomRight.x)
  }

  /**
   * `worldHeightViewport`: the x distance (not the y distance) between the
   * top-left and the bottom-left corner, as the tool computes it.
   */
  function WorldHeight(corners: Corners): (h: real)
    ensures h >= 0.0
  {
    Abs(corners.topLeft.x - corners.bottomLeft.x)
  }

  function Translate(p: Point3, d: Point3): Point3 { Point3(p.x + d.x, p.y + d.y, p.z + d.z) }

  /** The extents do not change when the whole view is moved, nor when left and right are swapped. */
  lemma ExtentIsRigid(c: Corners, d: Point3)
    ensures var moved := Corners(Translate(c.topLeft, d), Translate(c.topRight, d),
                                 Translate(c.bottomLeft, d), Translate(c.bottomRight, d));
            WorldWidth(moved) == WorldWidth(c) && WorldHeight(moved) == WorldHeight(c)
    ensures WorldWidth(Corners(c.topRight, c.topLeft, c.bottomRight, c.bottomLeft)) == WorldWidth(c)
  {
  }

  // ---------------------------------------------------------------------
  // Choice of the scale length

  /** The round lengths the bar may take, in millimetres, largest first. */
  const ScaleSizes: seq<int> := [2000, 1000, 500, 250, 100, 50, 25, 10, 5]

  predicate Descending(s: seq<int>) { forall i, j :: 0 <= i < j < |s| ==> s[i] > s[j] }

  /** A length fits an extent when it is strictly between 20% and 60% of it. */
  predicate Fits(size: int, extent: real)
  {
    (size as real) < extent * 0.6 && (size as real) > extent * 0.2
  }

  /** The extent the bar is measured against: the width for top and bottom, the height otherwise. */
  function ScaleExtent(worldWidth: real, worldHeight: real, location: Location): real
  {
    if Horizontal(location) then worldWidth else worldHeight
  }

  /** `sizes.filter(...)` with the fit condition, in the order of `sizes`. */
  function FilterFitting(sizes: seq<int>, extent: real): (r: seq<int>)
    ensures forall x :: x in r <==> x in sizes && Fits(x, extent)
    ensures Descending(sizes) ==> Descending(r)
  {
    if |sizes| == 0 then []
    else
      var rest := FilterFitting(sizes[1..], extent);
      if Fits(sizes[0], extent) then
        var r := [sizes[0]] + rest;
        assert Descending(sizes) ==> Descending(r) by {
          if Descending(sizes) {
            assert Descending(sizes[1..]);
            forall x | x in sizes[1..] ensures sizes[0] > x {
              var k :| 0 <= k < |sizes[1..]| && sizes[1..][k] == x;
              assert sizes[k + 1] == x;
            }
            forall j | 0 < j < |r| ensures r[0] > r[j] {
              assert r[j] == rest[j - 1] && rest[j - 1] in rest;
            }
          }
        }
        r
      else rest
  }

  /**
   * `computeScaleSize`: the largest candidate length that fits the extent,
   * or nothing when none does.
   */
  function ComputeScaleSize(worldWidth: real, worldHeight: real, location: Location): (r: Option<int>)
    ensures r.Some? ==> r.value in ScaleSizes && Fits(r.value, ScaleExtent(worldWidth, worldHeight, location))
    ensures r.Some? ==> forall c :: c in ScaleSizes && Fits(c, ScaleExtent(worldWidth, worldHeight, location)) ==> c <= r.value
    ensures r.None? <==> forall c :: c in ScaleSizes ==> !Fits(c, ScaleExtent(worldWidth, worldHeight, location))
  {
    assert Descending(ScaleSizes);
    var fitting := FilterFitting(ScaleSizes, ScaleExtent(worldWidth, worldHeight, location));
    if |fitting| == 0 then None
    else
      assert fitting[0] in fitting;
      Some(fitting[0])
  }

  /** With a 300 mm wide view a top bar is 100 mm long: the only candidate between 60 and 180 mm. */
  lemma ScaleSizeForWideView()
    ensures ComputeScaleSize(300.0, 0.0, Top) == Some(100)
  {
    var r := ComputeScaleSize(300.0, 0.0, Top);
    assert Fits(100, 300.0);
    assert r.Some? && 100 <= r.value;
    assert r.value in ScaleSizes && 60 < r.value < 180;
  }

  /**
   * When the top-left and bottom-left corners share their x coordinate (a
   * view whose left edge runs along y), the measured height is zero and no
   * bar placed left, right or elsewhere off the horizontal gets a length.
   */
  lemma NoVerticalScaleWhenLeftEdgeAlongY(corners: Corners, location: Location)
    requires corners.topLeft.x == corners.bottomLeft.x
    requires !Horizontal(location)
    ensures WorldHeight(corners) == 0.0
    ensures ComputeScaleSize(WorldWidth(corners), WorldHeight(corners), location) == None
  {
  }

  // ---------------------------------------------------------------------
  // Label

  /** `_getTextLines`: one line, in centimetres from 50 mm up and in millimetres below. */
  function TextLines(scaleSize: int): (lines: seq<string>)
    ensures |lines| == 1 && |lines[0]| > 3
    ensures lines[0][|lines[0]| - 3..] == if scaleSize >= 50 then " cm" else " mm"
  {
    if scaleSize >= 50 then [Strings.TenthsToString(scaleSize) + " cm"]
    else [Strings.IntToString(scaleSize) + " mm"]
  }

  /** The length in millimetres that a label states, if it is one. */
  function LabelMillimetres(text: string): Option<int>
  {
    if |text| < 3 then None
    else
      var body, unit := text[..|text| - 3], text[|text| - 3..];
      if unit == " mm" then Strings.ParseInt(body)
      else if unit == " cm" then
        match Strings.ParseTenths(body)
        case Some(t) => Some(t)
        case None => None
      else None
  }

  /** The label always states the scale length exactly. */
  lemma {:induction false} TextLinesReadBack(scaleSize: int)
    ensures LabelMillimetres(TextLines(scaleSize)[0]) == Some(scaleSize)
  {
    var text := TextLines(scaleSize)[0];
    if scaleSize >= 50 {
      assert text[..|text| - 3] == Strings.TenthsToString(scaleSize);
      Strings.ParseTenthsToString(scaleSize);
    } else {
      assert text[..|text| - 3] == Strings.IntToString(scaleSize);
      Strings.ParseIntToString(scaleSize);
    }
  }

  lemma TextLinesExamples()
    ensures TextLines(50) == ["5 cm"]
    ensures TextLines(49) == ["49 mm"]
    ensures TextLines(1000) == ["100 cm"]
    ensures TextLines(25) == ["25 mm"]
  {
    assert Strings.NatToString(5) == "5";
    assert Strings.TenthsToString(50) == "5";
    assert Strings.TenthsToString(1000) == Strings.NatToString(100);
    assert Strings.IntToString(49) == Strings.NatToString(49);
    assert Strings.IntToString(25) == Strings.NatToString(25);
    assert "5" + " cm" == "5 cm" && "49" + " mm" == "49 mm";
    assert "100" + " cm" == "100 cm" && "25" + " mm" == "25 mm";
    assert Strings.NatToString(49) == Strings.NatToString(4) + "9" == "49";
    assert Strings.NatToString(100) == Strings.NatToString(10) + "0" == Strings.NatToString(1) + "0" + "0" == "100";
    assert Strings.NatToString(25) == Strings.NatToString(2) + "5" == "25";
  }

  // ---------------------------------------------------------------------
  // Placement of the bar

  /** A product of non-negative reals is non-negative. */
  lemma NonNegativeProduct(a: real, b: real)
    requires 0.0 <= a && 0.0 <= b
    ensures 0.0 <= a * b
  {
  }

  /** The margin: a fraction of a canvas dimension, the dimension capped at 1000 px. */
  function Margin(fraction: real, dimension: real): (m: real)
    ensures 0.0 <= fraction <= 1.0 && dimension >= 0.0 ==> 0.0 <= m <= dimension
    ensures 0.0 <= fraction ==> m <= fraction * 1000.0
  {
    var capped := Min(1000.0, dimension);
    assert 0.0 <= fraction ==> fraction * capped <= fraction * 1000.0;
    if 0.0 <= fraction <= 1.0 && dimension >= 0.0 then
      assert 0.0 <= capped <= dimension;
      NonNegativeProduct(1.0 - fraction, capped);
      fraction * capped
    else fraction * capped
  }

  /**
   * `computeScaleBounds` for a top or bottom bar: the bar's y lies one
   * vertical margin inside the top or the bottom edge; the width is the
   * canvas width moved by that same vertical margin (the horizontal
   * reduction is computed by the tool but not used).
   */
  function ComputeScaleBounds(canvasSize: CanvasSize, horizontalReduction: real, verticalReduction: real,
                              location: Location): (r: ScaleBounds)
    requires Horizontal(location)
    ensures location == Top ==> r.height == Margin(verticalReduction, canvasSize.height)
    ensures location == Bottom ==> canvasSize.height - r.height == Margin(verticalReduction, canvasSize.height)
    ensures r.width - canvasSize.width == if location == Top then Margin(verticalReduction, canvasSize.height)
                                         else -Margin(verticalReduction, canvasSize.height)
  {
    var vReduction := verticalReduction * Min(1000.0, canvasSize.height);
    var locationBound := if location == Top then vReduction else -vReduction;
    var canvasBound := if location == Top then 0.0 else canvasSize.height;
    ScaleBounds(canvasBound + locationBound, canvasSize.width + locationBound)
  }

  /**
   * Top and bottom bounds mirror each other about the canvas centre; the
   * horizontal reduction never matters; and the margin is capped at 1000 px.
   */
  lemma ScaleBoundsMirror(canvasSize: CanvasSize, h: real, h': real, v: real)
    ensures ComputeScaleBounds(canvasSize, h, v, Top).height + ComputeScaleBounds(canvasSize, h, v, Bottom).height
            == canvasSize.height
    ensures ComputeScaleBounds(canvasSize, h, v, Top).width + ComputeScaleBounds(canvasSize, h, v, Bottom).width
            == 2.0 * canvasSize.width
    ensures ComputeScaleBounds(canvasSize, h, v, Top) == ComputeScaleBounds(canvasSize, h', v, Top)
    ensures ComputeScaleBounds(canvasSize, h, v, Bottom) == ComputeScaleBounds(canvasSize, h', v, Bottom)
    ensures canvasSize.height >= 1000.0 ==> ComputeScaleBounds(canvasSize, h, v, Top).height == v * 1000.0
  {
  }

  /** With a vertical fraction in [0, 1] both a top and a bottom bar lie on the canvas. */
  lemma {:induction false} ScaleBoundsOnCanvas(canvasSize: CanvasSize, h: real, v: real)
    requires 0.0 <= v <= 1.0 && canvasSize.height >= 0.0
    ensures 0.0 <= ComputeScaleBounds(canvasSize, h, v, Top).height <= canvasSize.height
    ensures 0.0 <= ComputeScaleBounds(canvasSize, h, v, Bottom).height <= canvasSize.height
  {
  }

  /**
   * `computeCanvasScaleCoordinates`: the bar keeps the horizontal separation
   * of the two projected points, is centred on the canvas width, and sits at
   * the height of the vertical bounds. The horizontal bounds and the
   * location play no part.
   */
  function ComputeCanvasScaleCoordinates(canvasSize: CanvasSize, canvasCoordinates: Segment,
                                         vscaleBounds: ScaleBounds, hscaleBounds: ScaleBounds,
                                         location: Location): (r: Segment)
    ensures r.start.y == vscaleBounds.height && r.end.y == vscaleBounds.height
    ensures r.start.x + r.end.x == canvasSize.width
    ensures r.end.x - r.start.x == canvasCoordinates.start.x - canvasCoordinates.end.x
  {
    var worldDistanceOnCanvas := canvasCoordinates.start.x - canvasCoordinates.end.x;
    Segment(Point2(canvasSize.width / 2.0 - worldDistanceOnCanvas / 2.0, vscaleBounds.height),
            Point2(canvasSize.width / 2.0 + worldDistanceOnCanvas / 2.0, vscaleBounds.height))
  }

  // ---------------------------------------------------------------------
  // End ticks

  /** How far an end tick reaches from the bar in y: down the canvas for top and right, up for bottom and left. */
  function EndTickReach(location: Location): (reach: real)
    ensures location != Unrecognised <==> Abs(reach) == 10.0
    ensures location == Unrecognised ==> reach == 0.0
    ensures reach > 0.0 <==> location == Top || location == Right
  {
    match location
    case Top => 10.0
    case Right => 10.0
    case Bottom => -10.0
    case Left => -10.0
    case Unrecognised => 0.0
  }

  /**
   * `t` is the end tick at `anchor`: it keeps the anchor's x, and one end is
   * the anchor (its start for top and bottom, its end for left and right)
   * while the other is `EndTickReach` away from it in y.
   */
  predicate IsEndTick(t: Segment, anchor: Point2, location: Location)
  {
    && t.start.x == anchor.x && t.end.x == anchor.x
    && if Horizontal(location) then t.start == anchor && t.end.y == anchor.y + EndTickReach(location)
       else t.end == anchor && t.start.y == anchor.y + EndTickReach(location)
  }

  /**
   * `computeEndScaleTicks`: `endTick1` hangs from the bar's second point and
   * `endTick2` from its first, each 10 px long; an unrecognised location
   * gives no ticks.
   */
  function ComputeEndScaleTicks(canvasCoordinates: Segment, location: Location): (r: Option<EndTicks>)
    ensures r.Some? <==> location != Unrecognised
    ensures r.Some? ==> IsEndTick(r.value.endTick1, canvasCoordinates.end, location)
                        && IsEndTick(r.value.endTick2, canvasCoordinates.start, location)
    ensures r.Some? ==> Abs(r.value.endTick1.end.y - r.value.endTick1.start.y) == 10.0
                        && Abs(r.value.endTick2.end.y - r.value.endTick2.start.y) == 10.0
  {
    var c0, c1 := canvasCoordinates.start, canvasCoordinates.end;
    match location
    case Bottom =>
      Some(EndTicks(Segment(c1, Point2(c1.x, c1.y - 10.0)), Segment(c0, Point2(c0.x, c0.y - 10.0))))
    case Top =>
      Some(EndTicks(Segment(c1, Point2(c1.x, c1.y + 10.0)), Segment(c0, Point2(c0.x, c0.y + 10.0))))
    case Left =>
      Some(EndTicks(Segment(Point2(c1.x, c1.y - 10.0), c1), Segment(Point2(c0.x, c0.y - 10.0), c0)))
    case Right =>
      Some(EndTicks(Segment(Point2(c1.x, c1.y + 10.0), c1), Segment(Point2(c0.x, c0.y + 10.0), c0)))
    case Unrecognised => None
  }

  function Reversed(t: Segment): Segment { Segment(t.end, t.start) }

  /**
   * Top and bottom ticks are mirror images across the bar; the left ticks
   * are the bottom ticks drawn the other way round and the right ticks the
   * top ones (all four keep the anchor's x).
   */
  lemma EndTicksMirror(bar: Segment)
    ensures var top, bottom := ComputeEndScaleTicks(bar, Top).value, ComputeEndScaleTicks(bar, Bottom).value;
            && top.endTick1.start == bottom.endTick1.start && top.endTick2.start == bottom.endTick2.start
            && top.endTick1.end.y - bar.end.y == bar.end.y - bottom.endTick1.end.y
            && top.endTick2.end.y - bar.start.y == bar.start.y - bottom.endTick2.end.y
    ensures var left, bottom := ComputeEndScaleTicks(bar, Left).value, ComputeEndScaleTicks(bar, Bottom).value;
            left.endTick1 == Reversed(bottom.endTick1) && left.endTick2 == Reversed(bottom.endTick2)
    ensures var right, top := ComputeEndScaleTicks(bar, Right).value, ComputeEndScaleTicks(bar, Top).value;
            right.endTick1 == Reversed(top.endTick1) && right.endTick2 == Reversed(top.endTick2)
  {
  }

  // ---------------------------------------------------------------------
  // Interior ticks

  /** `numberSmallTicks`: a tenth of the length from 50 mm up, else the length itself. */
  function Subdivisions(scaleSize: int): (n: real)
    ensures scaleSize >= 50 ==> n * 10.0 == scaleSize as real
    ensures scaleSize < 50 ==> n == scaleSize as real
  {
    if scaleSize >= 50 then (scaleSize as real) / 10.0 else scaleSize as real
  }

  /** How many interior ticks there are: the naturals `i` with `i < Subdivisions - 1`. */
  function InnerTickCount(scaleSize: int): (count: nat)
    ensures count as real >= Subdivisions(scaleSize) - 1.0
    ensures count > 0 ==> ((count - 1) as real) < Subdivisions(scaleSize) - 1.0
  {
    if scaleSize >= 50 then (scaleSize - 1) / 10
    else if scaleSize >= 1 then scaleSize - 1
    else 0
  }

  /** The loop `for (i = 0; i < numberSmallTicks - 1; i++)` runs exactly `InnerTickCount` times. */
  lemma {:induction false} TickLoopBound(scaleSize: int, i: nat)
    ensures (i as real) < Subdivisions(scaleSize) - 1.0 <==> i < InnerTickCount(scaleSize)
  {
    if scaleSize >= 50 {
      var q, r := (scaleSize - 1) / 10, (scaleSize - 1) % 10;
      assert scaleSize - 1 == 10 * q + r && 0 <= r < 10;
      calc {
        (i as real) < Subdivisions(scaleSize) - 1.0;
      <==> { assert Subdivisions(scaleSize) * 10.0 == scaleSize as real; }
        10 * i + 10 < scaleSize;
      <==>
        10 * (i + 1) <= 10 * q + r;
      <==>
        i + 1 <= q;
      }
    }
  }

  /** For every candidate length the subdivision count is whole and there is one tick fewer. */
  lemma CandidateTickCounts()
    ensures forall s :: s in ScaleSizes ==> InnerTickCount(s) as real == Subdivisions(s) - 1.0
    ensures InnerTickCount(100) == 9 && InnerTickCount(25) == 24 && InnerTickCount(2000) == 199
  {
  }

  /** The shift of a minor tick's far end: toward the bar from a bottom or a top end tick. */
  function MinorTickShift(location: Location): real
    requires Horizontal(location)
  {
    if location == Bottom then 5.0 else -5.0
  }

  /** `tickSpacing`: the span between the two end ticks divided into `Subdivisions` parts. */
  function TickSpacing(scaleSize: int, leftTick: Segment, rightTick: Segment): (spacing: real)
    requires Subdivisions(scaleSize) != 0.0
    ensures spacing * Subdivisions(scaleSize) == rightTick.start.x - leftTick.start.x
  {
    (rightTick.start.x - leftTick.start.x) / Subdivisions(scaleSize)
  }

  /**
   * The `i`-th interior tick: `leftTick` moved `i + 1` spacings along x; a
   * major tick (every fifth) keeps the far end of `leftTick`, a minor one
   * pulls it 5 px toward the bar.
   */
  function InnerTick(scaleSize: int, location: Location, leftTick: Segment, rightTick: Segment, i: nat): (t: Segment)
    requires Horizontal(location) && i < InnerTickCount(scaleSize)
    ensures t.start.y == leftTick.start.y
    ensures t.start.x - leftTick.start.x == t.end.x - leftTick.end.x


  {
    TickLoopBound(scaleSize, i);
    var offset := TickSpacing(scaleSize, leftTick, rightTick) * ((i + 1) as real);
    Segment(Point2(leftTick.start.x + offset, leftTick.start.y),
            Point2(leftTick.end.x + offset,
                   if (i + 1) % 5 == 0 then leftTick.end.y else leftTick.end.y + MinorTickShift(location)))
  }

  /** Where the `i`-th interior tick starts along the bar, for a spacing already computed. */
  lemma InnerTickAlong(scaleSize: int, location: Location, leftTick: Segment, rightTick: Segment, i: nat,
                       spacing: real)
    requires Horizontal(location) && i < InnerTickCount(scaleSize)
    requires spacing == TickSpacing(scaleSize, leftTick, rightTick)
    ensures InnerTick(scaleSize, location, leftTick, rightTick, i).start.x == leftTick.start.x + spacing * ((i + 1) as real)
  {
  }

  /** The `i`-th interior tick in terms of a spacing already computed, as the loop builds it. */
  lemma InnerTickAt(scaleSize: int, location: Location, leftTick: Segment, rightTick: Segment, i: nat,
                    spacing: real)
    requires Horizontal(location) && i < InnerTickCount(scaleSize)
    requires spacing == TickSpacing(scaleSize, leftTick, rightTick)
    ensures var along := spacing * ((i + 1) as real);
            InnerTick(scaleSize, location, leftTick, rightTick, i)
            == Segment(Point2(leftTick.start.x + along, leftTick.start.y + 0.0),
                       Point2(leftTick.end.x + along,
                              if (i + 1) % 5 == 0 then leftTick.end.y else leftTick.end.y + MinorTickShift(location)))
  {
  }

  /** The id of the `i`-th interior tick's drawing, `${annotationUID}-tick${i}`. */
  function TickId(annotationUID: string, i: nat): (id: string)
    ensures |id| > |annotationUID| + 5 && id[..|annotationUID| + 5] == annotationUID + "-tick"
    ensures Strings.AllDigits(id[|annotationUID| + 5..])
  {
    annotationUID + "-tick" + Strings.NatToString(i)
  }

  /** The UID of the `i`-th interior tick, `tick${i}`. */
  function TickUid(i: nat): (uid: string)
    ensures |uid| > 4 && uid[..4] == "tick" && Strings.AllDigits(uid[4..])
  {
    "tick" + Strings.NatToString(i)
  }

  /**
   * `computeInnerScaleTicks` for a top or bottom bar: one id, one UID and
   * one segment per interior tick, in tick order.
   */
  method ComputeInnerScaleTicks(scaleSize: int, location: Location, annotationUID: string,
                                leftTick: Segment, rightTick: Segment)
    returns (tickIds: seq<string>, tickUIDs: seq<string>, tickCoordinates: seq<Segment>)
    requires Horizontal(location)
    ensures |tickIds| == InnerTickCount(scaleSize)
    ensures |tickUIDs| == |tickIds| && |tickCoordinates| == |tickIds|
    ensures forall i :: 0 <= i < |tickIds| ==> tickIds[i] == TickId(annotationUID, i) && tickUIDs[i] == TickUid(i)
    ensures forall i :: 0 <= i < |tickCoordinates| ==>
              tickCoordinates[i] == InnerTick(scaleSize, location, leftTick, rightTick, i)
  {
    var canvasScaleSize := rightTick.start.x - leftTick.start.x;
    tickIds, tickUIDs, tickCoordinates := [], [], [];
    var numberSmallTicks := scaleSize as real;
    if scaleSize >= 50 {
      numberSmallTicks := (scaleSize as real) / 10.0;
    }
    // JavaScript divides by zero to an infinity or NaN here; no tick uses it then.
    var tickSpacing := if numberSmallTicks != 0.0 then canvasScaleSize / numberSmallTicks else 0.0;
    assert numberSmallTicks == Subdivisions(scaleSize);
    var i: nat := 0;
    while (i as real) < numberSmallTicks - 1.0
      invariant i <= InnerTickCount(scaleSize)
      invariant |tickIds| == i && |tickUIDs| == i && |tickCoordinates| == i
      invariant forall k :: 0 <= k < i ==> tickIds[k] == TickId(annotationUID, k) && tickUIDs[k] == TickUid(k)
      invariant forall k :: 0 <= k < i ==>
                  tickCoordinates[k] == InnerTick(scaleSize, location, leftTick, rightTick, k)
      decreases InnerTickCount(scaleSize) - i
    {
      TickLoopBound(scaleSize, i);
      InnerTickAt(scaleSize, location, leftTick, rightTick, i, tickSpacing);
      var along := tickSpacing * ((i + 1) as real);
      var minorShift := MinorTickShift(location);
      tickIds := tickIds + [TickId(annotationUID, i)];
      tickUIDs := tickUIDs + [TickUid(i)];
      var tick;
      if (i + 1) % 5 == 0 {
        tick := Segment(Point2(leftTick.start.x + along, leftTick.start.y + 0.0),
                        Point2(leftTick.end.x + along, leftTick.end.y));
      } else {
        tick := Segment(Point2(leftTick.start.x + along, leftTick.start.y + 0.0),
                        Point2(leftTick.end.x + along, leftTick.end.y + minorShift));
      }
      tickCoordinates := tickCoordinates + [tick];
      i := i + 1;
    }
    TickLoopBound(scaleSize, i);
  }

  /** Different interior ticks get different ids and different UIDs. */
  lemma {:induction false} TickIdsDistinct(annotationUID: string, i: nat, j: nat)
    requires i != j
    ensures TickId(annotationUID, i) != TickId(annotationUID, j)
    ensures TickUid(i) != TickUid(j)
  {
    Strings.NatToStringInjective(i, j);
    var p := annotationUID + "-tick";
    assert TickId(annotationUID, i)[|p|..] == Strings.NatToString(i);
    assert TickId(annotationUID, j)[|p|..] == Strings.NatToString(j);
    assert TickUid(i)[4..] == Strings.NatToString(i);
    assert TickUid(j)[4..] == Strings.NatToString(j);
  }

  /** One more step of `d` moves a point by exactly `d`. */
  lemma NextStep(a: real, d: real, k: real)
    ensures (a + d * (k + 1.0)) - (a + d * k) == d
  {
  }

  /** After `n - 1` steps of an `n`-th of the way from `a` to `b`, one step remains to `b`. */
  lemma {:induction false} LastStep(a: real, b: real, n: real)
    requires n != 0.0
    ensures b - (a + ((b - a) / n) * (n - 1.0)) == (b - a) / n
  {
    assert ((b - a) / n) * n == b - a;
  }

  /** The first interior tick is one spacing from the left end tick. */
  lemma {:induction false} FirstInnerTickOneSpacing(scaleSize: int, location: Location,
                                                    leftTick: Segment, rightTick: Segment)
    requires Horizontal(location) && 0 < InnerTickCount(scaleSize)
    ensures Subdivisions(scaleSize) > 1.0
    ensures InnerTick(scaleSize, location, leftTick, rightTick, 0).start.x - leftTick.start.x
            == TickSpacing(scaleSize, leftTick, rightTick)
  {
    TickLoopBound(scaleSize, 0);
    InnerTickAlong(scaleSize, location, leftTick, rightTick, 0, TickSpacing(scaleSize, leftTick, rightTick));
  }

  /** Consecutive interior ticks are one spacing apart. */
  lemma {:induction false} InnerTicksEvenlySpaced(scaleSize: int, location: Location,
                                                  leftTick: Segment, rightTick: Segment, i: nat)
    requires Horizontal(location) && i + 1 < InnerTickCount(scaleSize)
    ensures InnerTick(scaleSize, location, leftTick, rightTick, i + 1).start.x
            - InnerTick(scaleSize, location, leftTick, rightTick, i).start.x
            == TickSpacing(scaleSize, leftTick, rightTick)
  {
    TickLoopBound(scaleSize, i);
    TickLoopBound(scaleSize, i + 1);
    var d := TickSpacing(scaleSize, leftTick, rightTick);
    InnerTickAlong(scaleSize, location, leftTick, rightTick, i, d);
    InnerTickAlong(scaleSize, location, leftTick, rightTick, i + 1, d);
    NextStep(leftTick.start.x, d, (i + 1) as real);
  }

  /** For every candidate length the last interior tick is one spacing from the right end tick. */
  lemma {:induction false} LastInnerTickOneSpacing(scaleSize: int, location: Location,
                                                   leftTick: Segment, rightTick: Segment, i: nat)
    requires Horizontal(location) && scaleSize in ScaleSizes && i + 1 == InnerTickCount(scaleSize)
    ensures rightTick.start.x - InnerTick(scaleSize, location, leftTick, rightTick, i).start.x
            == TickSpacing(scaleSize, leftTick, rightTick)
  {
    TickLoopBound(scaleSize, i);
    CandidateTickCounts();
    var n := Subdivisions(scaleSize);
    assert (i + 1) as real == n - 1.0;
    InnerTickAlong(scaleSize, location, leftTick, rightTick, i, TickSpacing(scaleSize, leftTick, rightTick));
    LastStep(leftTick.start.x, rightTick.start.x, n);
  }

  /** `span * f` lies strictly between 0 and `span` when `f` does between 0 and 1. */
  lemma ScaledInside(span: real, f: real)
    requires 0.0 < f < 1.0
    ensures span > 0.0 ==> 0.0 < span * f < span
    ensures span < 0.0 ==> span < span * f < 0.0
  {
    if span > 0.0 {
      assert span * f < span * 1.0;
    } else if span < 0.0 {
      assert (-span) * f < (-span) * 1.0;
    }
  }

  /** A fraction with a positive numerator below its denominator lies strictly between 0 and 1. */
  lemma FractionInside(a: real, n: real)
    requires 0.0 < a < n
    ensures 0.0 < a / n < 1.0
  {
    var f := a / n;
    assert f * n == a;
    if f >= 1.0 {
      assert false;
    }
  }

  /** Fewer than `n` steps of an `n`-th of the way from `a` to `b` stay strictly between them. */
  lemma {:induction false} StepsStrictlyBetween(a: real, b: real, n: real, k: real)
    requires 0.0 < k < n
    ensures var x := a + ((b - a) / n) * k;
            (a < b ==> a < x < b) && (b < a ==> b < x < a)
  {
    var span := b - a;
    assert (span / n) * k == span * (k / n);
    FractionInside(k, n);
    ScaledInside(span, k / n);
  }

  /** Every interior tick starts strictly between the two end ticks, whichever of them is further left. */
  lemma {:induction false} InnerTicksStrictlyBetween(scaleSize: int, location: Location,
                                                     leftTick: Segment, rightTick: Segment, i: nat)
    requires Horizontal(location) && i < InnerTickCount(scaleSize)
    ensures var x := InnerTick(scaleSize, location, leftTick, rightTick, i).start.x;
            (leftTick.start.x < rightTick.start.x ==> leftTick.start.x < x < rightTick.start.x) &&
            (rightTick.start.x < leftTick.start.x ==> rightTick.start.x < x < leftTick.start.x)
  {
    TickLoopBound(scaleSize, i);
    var spacing := TickSpacing(scaleSize, leftTick, rightTick);
    InnerTickAlong(scaleSize, location, leftTick, rightTick, i, spacing);
    StepsStrictlyBetween(leftTick.start.x, rightTick.start.x, Subdivisions(scaleSize), (i + 1) as real);
  }

  /**
   * On a bar built by the tool, every interior tick starts on the bar; a
   * major tick has the full length and direction of the end ticks and a
   * minor tick half of it, on the same side.
   */
  lemma RulerTickLengths(bar: Segment, location: Location, scaleSize: int, i: nat)
    requires Horizontal(location) && i < InnerTickCount(scaleSize)
    requires bar.start.y == bar.end.y
    ensures var ends := ComputeEndScaleTicks(bar, location).value;
            var t := InnerTick(scaleSize, location, ends.endTick1, ends.endTick2, i);
            && t.start.y == bar.start.y
            && ((i + 1) % 5 == 0 ==> t.end.y - t.start.y == ends.endTick1.end.y - ends.endTick1.start.y)
            && ((i + 1) % 5 != 0 ==> t.end.y - t.start.y == (ends.endTick1.end.y - ends.endTick1.start.y) / 2.0)
  {
  }

  /**
   * The whole ruler: given two projected points at different x, the bar
   * built from them, its end ticks and its interior ticks put every interior
   * tick on the bar line and strictly between the bar's two ends.
   */
  lemma {:induction false} RulerTicksInsideBar(canvasSize: CanvasSize, projected: Segment,
                                              vscaleBounds: ScaleBounds, hscaleBounds: ScaleBounds,
                                              location: Location, scaleSize: int, i: nat)
    requires Horizontal(location) && i < InnerTickCount(scaleSize)
    requires projected.start.x != projected.end.x
    ensures var bar := ComputeCanvasScaleCoordinates(canvasSize, projected, vscaleBounds, hscaleBounds, location);
            var ends := ComputeEndScaleTicks(bar, location).value;
            var t := InnerTick(scaleSize, location, ends.endTick1, ends.endTick2, i);
            && t.start.y == vscaleBounds.height
            && Min(bar.start.x, bar.end.x) < t.start.x
            && t.start.x < (if bar.start.x < bar.end.x then bar.end.x else bar.start.x)
  {
    var bar := ComputeCanvasScaleCoordinates(canvasSize, projected, vscaleBounds, hscaleBounds, location);
    var ends := ComputeEndScaleTicks(bar, location).value;
    InnerTicksStrictlyBetween(scaleSize, location, ends.endTick1, ends.endTick2, i);
  }
}
