/** The colour ramp and the colorbar legend arithmetic (floatToColor, drawColorbarVertical,
    drawColorbarHorizontal in src/application.cpp). Colours are returned as (r, g, b, a)
    channel values; their packing into a 32-bit ImU32 is not modelled. */
module Colors {
  import opened Mesh

  datatype Rgba8 = Rgba8(r: int, g: int, b: int, a: int)

  predicate ChannelsInRange(c: Rgba8)
  {
    0 <= c.r <= 255 && 0 <= c.g <= 255 && 0 <= c.b <= 255 && 0 <= c.a <= 255
  }

  /** C++'s float-to-int conversion `int(x)`: truncation toward zero. */
  function Truncate(x: real): (n: int)
    ensures 0.0 <= x ==> 0 <= n && n as real <= x < n as real + 1.0
    ensures x < 0.0 ==> n <= 0 && n as real - 1.0 < x <= n as real
  {
    if x >= 0.0 then x.Floor else -((-x).Floor)
  }

  lemma TruncateMonotone(x: real, y: real)
    requires x <= y
    ensures Truncate(x) <= Truncate(y)
  {
  }

  /** floatToColor: SHADOW keeps red at 255 and scales green and blue together with 1 - t;
      TEMPERATURE scales red with t and blue with 1 - t, green stays 0. Alpha is always 255,
      and for t in [0, 1] every channel is a byte. The source leaves the colour undefined for
      WIREFRAME, so that mode is excluded. */
  function FloatToColor(t: real, mode: VisualizationMode): (c: Rgba8)
    requires mode != Wireframe
    ensures c.a == 255
    ensures mode == Shadow ==> c.r == 255 && c.g == c.b
    ensures mode == Temperature ==> c.g == 0
    ensures 0.0 <= t <= 1.0 ==> ChannelsInRange(c)
  {
    if mode == Shadow then
      var g := Truncate(255.0 * (1.0 - t));
      Rgba8(255, g, g, 255)
    else
      Rgba8(Truncate(255.0 * t), 0, Truncate(255.0 * (1.0 - t)), 255)
  }

  /** The ends of the ramps: SHADOW runs from white at 0 to red at 1, TEMPERATURE from blue
      at 0 to red at 1. */
  lemma RampEnds()
    ensures FloatToColor(0.0, Shadow) == Rgba8(255, 255, 255, 255)
    ensures FloatToColor(1.0, Shadow) == Rgba8(255, 0, 0, 255)
    ensures FloatToColor(0.0, Temperature) == Rgba8(0, 0, 255, 255)
    ensures FloatToColor(1.0, Temperature) == Rgba8(255, 0, 0, 255)
  {
  }

  /** Along each ramp the colour changes in one direction only: as t grows the SHADOW
      green/blue channels and the TEMPERATURE blue channel never grow, and the TEMPERATURE red
      channel never shrinks. */
  lemma RampMonotone(t1: real, t2: real)
    requires t1 <= t2
    ensures FloatToColor(t2, Shadow).g <= FloatToColor(t1, Shadow).g
    ensures FloatToColor(t1, Temperature).r <= FloatToColor(t2, Temperature).r
    ensures FloatToColor(t2, Temperature).b <= FloatToColor(t1, Temperature).b
  {
    TruncateMonotone(255.0 * (1.0 - t2), 255.0 * (1.0 - t1));
    TruncateMonotone(255.0 * t1, 255.0 * t2);
  }

  /** The legend's fixed display range and title. */
  datatype LegendScale = LegendScale(minValue: real, maxValue: real, title: string)

  function ScaleOf(mode: VisualizationMode): (s: LegendScale)
    requires mode != Wireframe
    ensures s.minValue < s.maxValue
  {
    if mode == Shadow then LegendScale(0.0, 1.0, "f [-]") else LegendScale(250.0, 300.0, "T [K]")
  }

  /** SHADOW shows [0, 1] titled "f [-]"; TEMPERATURE shows [250, 300] titled "T [K]". */
  lemma ScaleTable()
    ensures ScaleOf(Shadow) == LegendScale(0.0, 1.0, "f [-]")
    ensures ScaleOf(Temperature) == LegendScale(250.0, 300.0, "T [K]")
  {
  }

  /** numSegments: the bar is drawn as 100 gradient segments. Where the source divides by
      the segment or label count as a float, the model writes the literal 100.0 or 5.0. */
  const NumSegments: nat := 100
  /** numLabels: the labels are i = 0 .. NumLabels, six in all. */
  const NumLabels: nat := 5

  datatype Point = Point(x: real, y: real)

  /** AddRectFilledMultiColor(min, max, upper-left, upper-right, bottom-right, bottom-left). */
  datatype GradientRect = GradientRect(min: Point, max: Point,
                                       upperLeft: Rgba8, upperRight: Rgba8,
                                       bottomRight: Rgba8, bottomLeft: Rgba8)

  datatype Tick = Tick(from: Point, to: Point)

  /** A label's text position and the number it prints ("%.1f" formatting not modelled). */
  datatype Label = Label(at: Point, value: real)

  /** Everything one colorbar draws on the foreground draw list. */
  datatype Colorbar = Colorbar(segments: seq<GradientRect>, borderMin: Point, borderMax: Point,
                               ticks: seq<Tick>, labels: seq<Label>,
                               titleAt: Point, title: string)

  /** Where the bar goes: x = xColorbar_ * width, y = yColorbar_ * height, and sizeColorbar_. */
  datatype Placement = Placement(x: real, y: real, size: real)

  // Vertical bar: 25 * size wide, 200 * size high, maximum at the top.

  function VerticalWidth(p: Placement): real { 25.0 * p.size }
  function VerticalHeight(p: Placement): real { 200.0 * p.size }

  function VerticalSegment(p: Placement, mode: VisualizationMode, i: nat): GradientRect
    requires mode != Wireframe && i < NumSegments
  {
    var segmentHeight := VerticalHeight(p) / 100.0;
    var color1 := FloatToColor(1.0 - i as real / 100.0, mode);
    var color2 := FloatToColor(1.0 - (i + 1) as real / 100.0, mode);
    GradientRect(Point(p.x, p.y + i as real * segmentHeight),
                 Point(p.x + VerticalWidth(p), p.y + (i + 1) as real * segmentHeight),
                 color1, color1, color2, color2)
  }

  function VerticalTickY(p: Placement, i: nat): real
  {
    p.y + (i as real / 5.0) * VerticalHeight(p)
  }

  function VerticalTick(p: Placement, i: nat): Tick
  {
    var yPos := VerticalTickY(p, i);
    Tick(Point(p.x + VerticalWidth(p), yPos), Point(p.x + VerticalWidth(p) + 5.0, yPos))
  }

  function VerticalLabel(p: Placement, s: LegendScale, i: nat): Label
  {
    var t := i as real / 5.0;
    Label(Point(p.x + VerticalWidth(p) + 8.0, VerticalTickY(p, i) - 7.0),
          s.maxValue - t * (s.maxValue - s.minValue))
  }

  /** The 100 vertical segments are equally high and stacked without gaps or overlaps from
      the top edge y to the bottom edge y + barHeight; each starts with the colour the
      previous one ended with, from the colour of 1 at the top to the colour of 0 at the
      bottom. */
  lemma VerticalSegmentsTile(p: Placement, mode: VisualizationMode, i: nat)
    requires mode != Wireframe && i < NumSegments
    ensures var s := VerticalSegment(p, mode, i);
            && s.min.x == p.x && s.max.x == p.x + VerticalWidth(p)
            && s.max.y - s.min.y == VerticalHeight(p) / 100.0
            && (i == 0 ==> s.min.y == p.y && s.upperLeft == FloatToColor(1.0, mode))
            && (i == NumSegments - 1 ==> s.max.y == p.y + VerticalHeight(p)
                                         && s.bottomLeft == FloatToColor(0.0, mode))
    ensures i + 1 < NumSegments ==>
            && VerticalSegment(p, mode, i).max.y == VerticalSegment(p, mode, i + 1).min.y
            && VerticalSegment(p, mode, i).bottomLeft == VerticalSegment(p, mode, i + 1).upperLeft
  {
  }

  /** The six vertical labels run from the maximum at the top to the minimum at the bottom
      in five equal steps. */
  lemma VerticalLabelsSpan(p: Placement, mode: VisualizationMode, i: nat)
    requires mode != Wireframe && i < NumLabels
    ensures var s := ScaleOf(mode);
            && VerticalLabel(p, s, 0).value == s.maxValue
            && VerticalLabel(p, s, NumLabels).value == s.minValue
            && VerticalLabel(p, s, i + 1).value - VerticalLabel(p, s, i).value
               == -(s.maxValue - s.minValue) / 5.0
  {
    var s := ScaleOf(mode);
    LabelStep(s.minValue, s.maxValue, i);
  }

  /** The label on the tick at fraction i/5 of the height sits where segment 20 * i begins,
      and prints the value whose normalised position is the colour that segment starts with. */
  lemma VerticalLegendConsistent(p: Placement, mode: VisualizationMode, i: nat)
    requires mode != Wireframe && i < NumLabels
    ensures var s := ScaleOf(mode);
            var level := 1.0 - i as real / 5.0;
            var segment := VerticalSegment(p, mode, 20 * i);
            && segment.min.y == VerticalTick(p, i).from.y
            && segment.upperLeft == FloatToColor(level, mode)
            && VerticalLabel(p, s, i).value == s.minValue + level * (s.maxValue - s.minValue)
  {
    TickOnSegmentEdge(VerticalHeight(p), i);
    assert (20 * i) as real / 100.0 == i as real / 5.0;
  }

  // Horizontal bar: 200 * size wide, 25 * size high, minimum on the left.

  function HorizontalWidth(p: Placement): real { 200.0 * p.size }
  function HorizontalHeight(p: Placement): real { 25.0 * p.size }

  function HorizontalSegment(p: Placement, mode: VisualizationMode, i: nat): GradientRect
    requires mode != Wireframe && i < NumSegments
  {
    var segmentWidth := HorizontalWidth(p) / 100.0;
    var color1 := FloatToColor(i as real / 100.0, mode);
    var color2 := FloatToColor((i + 1) as real / 100.0, mode);
    GradientRect(Point(p.x + i as real * segmentWidth, p.y),
                 Point(p.x + (i + 1) as real * segmentWidth, p.y + HorizontalHeight(p)),
                 color1, color1, color2, color2)
  }

  function HorizontalTickX(p: Placement, i: nat): real
  {
    p.x + (i as real / 5.0) * HorizontalWidth(p)
  }

  function HorizontalTick(p: Placement, i: nat): Tick
  {
    var xPos := HorizontalTickX(p, i);
    Tick(Point(xPos, p.y + HorizontalHeight(p)), Point(xPos, p.y + HorizontalHeight(p) + 5.0))
  }

  function HorizontalLabel(p: Placement, s: LegendScale, i: nat): Label
  {
    var t := i as real / 5.0;
    Label(Point(HorizontalTickX(p, i) - 7.0, p.y + HorizontalHeight(p) + 8.0),
          s.minValue + t * (s.maxValue - s.minValue))
  }

  /** The 100 horizontal segments are equally wide and placed side by side from x to
      x + barWidth, the colour of 0 at the left and of 1 at the right. The corner colours
      are passed as (c1, c1, c2, c2), as for the vertical bar, so within one segment the
      colour changes from its top edge to its bottom edge. */
  lemma HorizontalSegmentsTile(p: Placement, mode: VisualizationMode, i: nat)
    requires mode != Wireframe && i < NumSegments
    ensures var s := HorizontalSegment(p, mode, i);
            && s.min.y == p.y && s.max.y == p.y + HorizontalHeight(p)
            && s.max.x - s.min.x == HorizontalWidth(p) / 100.0
            && s.upperLeft == s.upperRight && s.bottomLeft == s.bottomRight
            && (i == 0 ==> s.min.x == p.x && s.upperLeft == FloatToColor(0.0, mode))
            && (i == NumSegments - 1 ==> s.max.x == p.x + HorizontalWidth(p)
                                         && s.bottomRight == FloatToColor(1.0, mode))
    ensures i + 1 < NumSegments ==>
            && HorizontalSegment(p, mode, i).max.x == HorizontalSegment(p, mode, i + 1).min.x
            && HorizontalSegment(p, mode, i).bottomLeft == HorizontalSegment(p, mode, i + 1).upperLeft
  {
  }

  /** As written, every horizontal segment shades from top to bottom: for SHADOW the first
      segment is white along its top edge and not along its bottom edge, while its two top
      corners (and its two bottom corners) carry the same colour. */
  lemma HorizontalShadedTopToBottom(p: Placement)
    ensures var s := HorizontalSegment(p, Shadow, 0);
            && s.upperLeft == s.upperRight == FloatToColor(0.0, Shadow)
            && s.bottomLeft == s.bottomRight == FloatToColor(0.01, Shadow)
            && s.upperLeft != s.bottomLeft
  {
    assert 255.0 * (1.0 - 0.01) == 252.45;
  }

  /** A horizontal segment with its corners in ImGui's order (upper-left, upper-right,
      bottom-right, bottom-left) given as (c1, c2, c2, c1): shaded from left to right. */
  function HorizontalSegmentIntended(p: Placement, mode: VisualizationMode, i: nat): GradientRect
    requires mode != Wireframe && i < NumSegments
  {
    var r := HorizontalSegment(p, mode, i);
    var color1 := FloatToColor(i as real / 100.0, mode);
    var color2 := FloatToColor((i + 1) as real / 100.0, mode);
    GradientRect(r.min, r.max, color1, color2, color2, color1)
  }

  /** The intended horizontal segments cover the same rectangles; each one's left edge has
      the colour of i/100 and its right edge that of (i + 1)/100, so along the bar the colour
      runs from 0 on the left to 1 on the right and neighbours meet in the same colour. */
  lemma HorizontalIntendedShading(p: Placement, mode: VisualizationMode, i: nat)
    requires mode != Wireframe && i < NumSegments
    ensures var s := HorizontalSegmentIntended(p, mode, i);
            && s.min == HorizontalSegment(p, mode, i).min && s.max == HorizontalSegment(p, mode, i).max
            && s.upperLeft == s.bottomLeft == FloatToColor(i as real / 100.0, mode)
            && s.upperRight == s.bottomRight == FloatToColor((i + 1) as real / 100.0, mode)
            && (i == 0 ==> s.upperLeft == FloatToColor(0.0, mode))
            && (i == NumSegments - 1 ==> s.upperRight == FloatToColor(1.0, mode))
    ensures i + 1 < NumSegments ==>
              HorizontalSegmentIntended(p, mode, i).upperRight
              == HorizontalSegmentIntended(p, mode, i + 1).upperLeft
  {
  }

  /** The six horizontal labels run from the minimum on the left to the maximum on the
      right in five equal steps. */
  lemma HorizontalLabelsSpan(p: Placement, mode: VisualizationMode, i: nat)
    requires mode != Wireframe && i < NumLabels
    ensures var s := ScaleOf(mode);
            && HorizontalLabel(p, s, 0).value == s.minValue
            && HorizontalLabel(p, s, NumLabels).value == s.maxValue
            && HorizontalLabel(p, s, i + 1).value - HorizontalLabel(p, s, i).value
               == (s.maxValue - s.minValue) / 5.0
  {
    var s := ScaleOf(mode);
    LabelStep(s.minValue, s.maxValue, i);
  }

  /** The label under the tick at fraction i/5 of the width sits where segment 20 * i begins,
      and prints the value whose normalised position is the colour that segment starts with. */
  lemma HorizontalLegendConsistent(p: Placement, mode: VisualizationMode, i: nat)
    requires mode != Wireframe && i < NumLabels
    ensures var s := ScaleOf(mode);
            var level := i as real / 5.0;
            var segment := HorizontalSegment(p, mode, 20 * i);
            && segment.min.x == HorizontalTick(p, i).from.x
            && segment.upperLeft == FloatToColor(level, mode)
            && HorizontalLabel(p, s, i).value == s.minValue + level * (s.maxValue - s.minValue)
  {
    TickOnSegmentEdge(HorizontalWidth(p), i);
    assert (20 * i) as real / 100.0 == i as real / 5.0;
  }


  // The whole legend, as drawColorbarVertical and drawColorbarHorizontal leave it on the draw
  // list. `titleWidth` is the width ImGui measures for the title text.

  /** The vertical legend: the segments top to bottom, the border, six ticks and labels on
      the right edge, and the title centred 20 pixels above the bar. */
  function VerticalBar(p: Placement, mode: VisualizationMode, titleWidth: real): Colorbar
    requires mode != Wireframe
  {
    var s := ScaleOf(mode);
    Colorbar(VerticalSegments(p, mode),
             Point(p.x, p.y), Point(p.x + VerticalWidth(p), p.y + VerticalHeight(p)),
             VerticalTicks(p), VerticalLabels(p, s),
             Point(p.x + (VerticalWidth(p) - titleWidth) / 2.0, p.y - 20.0), s.title)
  }

  function VerticalSegments(p: Placement, mode: VisualizationMode): seq<GradientRect>
    requires mode != Wireframe
  {
    seq(NumSegments, i requires 0 <= i < NumSegments => VerticalSegment(p, mode, i))
  }

  function VerticalTicks(p: Placement): seq<Tick>
  {
    seq(NumLabels + 1, i requires 0 <= i => VerticalTick(p, i))
  }

  function VerticalLabels(p: Placement, s: LegendScale): seq<Label>
  {
    seq(NumLabels + 1, i requires 0 <= i => VerticalLabel(p, s, i))
  }

  /** The horizontal legend: the segments left to right, the border, six ticks and labels
      under the bottom edge, and the title centred 25 pixels above the bar. */
  function HorizontalBar(p: Placement, mode: VisualizationMode, titleWidth: real): Colorbar
    requires mode != Wireframe
  {
    var s := ScaleOf(mode);
    Colorbar(HorizontalSegments(p, mode),
             Point(p.x, p.y), Point(p.x + HorizontalWidth(p), p.y + HorizontalHeight(p)),
             HorizontalTicks(p), HorizontalLabels(p, s),
             Point(p.x + (HorizontalWidth(p) - titleWidth) / 2.0, p.y - 25.0), s.title)
  }

  /** Consecutive labels of a range differ by a fifth of it. */
  lemma LabelStep(lo: real, hi: real, i: nat)
    ensures ((i + 1) as real / 5.0) * (hi - lo) - (i as real / 5.0) * (hi - lo)
            == (hi - lo) / 5.0
  {
    var d := hi - lo;
    assert ((i + 1) as real / 5.0) * d == (i as real / 5.0) * d + d / 5.0;
  }

  /** Label i sits where segment 20 * i begins: 20 * i hundredths of a length is i fifths of it. */
  lemma TickOnSegmentEdge(length: real, i: nat)
    ensures (20 * i) as real * (length / 100.0) == (i as real / 5.0) * length
  {
    assert (20 * i) as real * (length / 100.0) == (i as real) * (length / 5.0);
  }

  lemma ScaleWithin(a: real, b: real, c: real)
    requires 0.0 <= a <= b && c >= 0.0
    ensures 0.0 <= a * c <= b * c
  {
  }

  /** Step i of n equal steps of a positive length starts at or after 0, ends after it
      starts, and ends at or before the whole length. */
  lemma StepWithin(length: real, n: nat, i: nat)
    requires length > 0.0 && i < n
    ensures var step := length / n as real;
            0.0 <= i as real * step < (i + 1) as real * step <= length
  {
    var step := length / n as real;
    ScaleWithin(i as real, (i + 1) as real, step);
    ScaleWithin((i + 1) as real, n as real, step);
  }


  /** For a positive size every segment of the vertical legend lies inside its border. */
  lemma VerticalSegmentsInside(p: Placement, mode: VisualizationMode, titleWidth: real)
    requires mode != Wireframe && p.size > 0.0
    ensures var bar := VerticalBar(p, mode, titleWidth);
            forall i :: 0 <= i < |bar.segments| ==>
              bar.borderMin.x <= bar.segments[i].min.x && bar.segments[i].max.x <= bar.borderMax.x
              && bar.borderMin.y <= bar.segments[i].min.y < bar.segments[i].max.y <= bar.borderMax.y
  {
    var bar := VerticalBar(p, mode, titleWidth);
    forall i | 0 <= i < |bar.segments|
      ensures bar.borderMin.y <= bar.segments[i].min.y < bar.segments[i].max.y <= bar.borderMax.y
    {
      VerticalSegmentInside(p, mode, i);
    }
  }

  /** One segment of the vertical legend lies between the border's top and bottom. */
  lemma VerticalSegmentInside(p: Placement, mode: VisualizationMode, i: nat)
    requires mode != Wireframe && p.size > 0.0 && i < NumSegments
    ensures var r := VerticalSegment(p, mode, i);
            p.y <= r.min.y < r.max.y <= p.y + VerticalHeight(p)
  {
    StepWithin(VerticalHeight(p), NumSegments, i);
  }

  /** For a positive size every tick of the vertical legend starts on the border's right
      edge, between its top and bottom corners. */
  lemma VerticalTicksOnEdge(p: Placement, mode: VisualizationMode, titleWidth: real)
    requires mode != Wireframe && p.size > 0.0
    ensures var bar := VerticalBar(p, mode, titleWidth);
            forall i :: 0 <= i < |bar.ticks| ==>
              bar.ticks[i].from.x == bar.borderMax.x
              && bar.borderMin.y <= bar.ticks[i].from.y <= bar.borderMax.y
  {
    var bar := VerticalBar(p, mode, titleWidth);
    forall i | 0 <= i < |bar.ticks|
      ensures bar.borderMin.y <= bar.ticks[i].from.y <= bar.borderMax.y
    {
      VerticalTickInside(p, i);
    }
  }

  /** One tick of the vertical legend starts between the border's two corners. */
  lemma VerticalTickInside(p: Placement, i: nat)
    requires p.size > 0.0 && i <= NumLabels
    ensures p.y <= VerticalTick(p, i).from.y <= p.y + VerticalHeight(p)
  {
    var length := VerticalHeight(p);
    assert VerticalTick(p, i).from.y == p.y + (i as real / 5.0) * length;
    // One case per label keeps the arithmetic linear.
    if i == 0 {
    } else if i == 1 {
    } else if i == 2 {
    } else if i == 3 {
    } else if i == 4 {
    } else {
      assert i == 5;
    }
  }

  /** The vertical legend holds 100 segments and six ticks and labels, and its title is
      centred on the bar above its top edge. */
  lemma VerticalTitleCentred(p: Placement, mode: VisualizationMode, titleWidth: real)
    requires mode != Wireframe && p.size > 0.0
    ensures var bar := VerticalBar(p, mode, titleWidth);
            && |bar.segments| == NumSegments && |bar.ticks| == NumLabels + 1 == |bar.labels|
            && bar.title == ScaleOf(mode).title
            && bar.titleAt.x + titleWidth / 2.0 == (bar.borderMin.x + bar.borderMax.x) / 2.0
            && bar.titleAt.y < bar.borderMin.y
  {
  }

  function HorizontalSegments(p: Placement, mode: VisualizationMode): seq<GradientRect>
    requires mode != Wireframe
  {
    seq(NumSegments, i requires 0 <= i < NumSegments => HorizontalSegment(p, mode, i))
  }

  function HorizontalTicks(p: Placement): seq<Tick>
  {
    seq(NumLabels + 1, i requires 0 <= i => HorizontalTick(p, i))
  }

  function HorizontalLabels(p: Placement, s: LegendScale): seq<Label>
  {
    seq(NumLabels + 1, i requires 0 <= i => HorizontalLabel(p, s, i))
  }

  /** For a positive size every segment of the horizontal legend lies inside its border. */
  lemma HorizontalSegmentsInside(p: Placement, mode: VisualizationMode, titleWidth: real)
    requires mode != Wireframe && p.size > 0.0
    ensures var bar := HorizontalBar(p, mode, titleWidth);
            forall i :: 0 <= i < |bar.segments| ==>
              bar.borderMin.y <= bar.segments[i].min.y && bar.segments[i].max.y <= bar.borderMax.y
              && bar.borderMin.x <= bar.segments[i].min.x < bar.segments[i].max.x <= bar.borderMax.x
  {
    var bar := HorizontalBar(p, mode, titleWidth);
    forall i | 0 <= i < |bar.segments|
      ensures bar.borderMin.x <= bar.segments[i].min.x < bar.segments[i].max.x <= bar.borderMax.x
    {
      HorizontalSegmentInside(p, mode, i);
    }
  }

  /** One segment of the horizontal legend lies between the border's left and right. */
  lemma HorizontalSegmentInside(p: Placement, mode: VisualizationMode, i: nat)
    requires mode != Wireframe && p.size > 0.0 && i < NumSegments
    ensures var r := HorizontalSegment(p, mode, i);
            p.x <= r.min.x < r.max.x <= p.x + HorizontalWidth(p)
  {
    StepWithin(HorizontalWidth(p), NumSegments, i);
  }

  /** For a positive size every tick of the horizontal legend starts on the border's bottom
      edge, between its left and right corners. */
  lemma HorizontalTicksOnEdge(p: Placement, mode: VisualizationMode, titleWidth: real)
    requires mode != Wireframe && p.size > 0.0
    ensures var bar := HorizontalBar(p, mode, titleWidth);
            forall i :: 0 <= i < |bar.ticks| ==>
              bar.ticks[i].from.y == bar.borderMax.y
              && bar.borderMin.x <= bar.ticks[i].from.x <= bar.borderMax.x
  {
    var bar := HorizontalBar(p, mode, titleWidth);
    forall i | 0 <= i < |bar.ticks|
      ensures bar.borderMin.x <= bar.ticks[i].from.x <= bar.borderMax.x
    {
      HorizontalTickInside(p, i);
    }
  }

  /** One tick of the horizontal legend starts between the border's two corners. */
  lemma HorizontalTickInside(p: Placement, i: nat)
    requires p.size > 0.0 && i <= NumLabels
    ensures p.x <= HorizontalTick(p, i).from.x <= p.x + HorizontalWidth(p)
  {
    var length := HorizontalWidth(p);
    assert HorizontalTick(p, i).from.x == p.x + (i as real / 5.0) * length;
    // One case per label keeps the arithmetic linear.
    if i == 0 {
    } else if i == 1 {
    } else if i == 2 {
    } else if i == 3 {
    } else if i == 4 {
    } else {
      assert i == 5;
    }
  }

  /** The horizontal legend holds 100 segments and six ticks and labels, and its title is
      centred on the bar above its top edge. */
  lemma HorizontalTitleCentred(p: Placement, mode: VisualizationMode, titleWidth: real)
    requires mode != Wireframe && p.size > 0.0
    ensures var bar := HorizontalBar(p, mode, titleWidth);
            && |bar.segments| == NumSegments && |bar.ticks| == NumLabels + 1 == |bar.labels|
            && bar.title == ScaleOf(mode).title
            && bar.titleAt.x + titleWidth / 2.0 == (bar.borderMin.x + bar.borderMax.x) / 2.0
            && bar.titleAt.y < bar.borderMin.y
  {
  }

  // The drawing loops of drawColorbarVertical and drawColorbarHorizontal.

  /** The vertical gradient loop: segment i spans [i, i + 1] * barHeight / 100 from the top,
      shaded from the colour of 1 - i/100 to that of 1 - (i + 1)/100. */
  method PaintVerticalSegments(p: Placement, mode: VisualizationMode) returns (segments: seq<GradientRect>)
    requires mode != Wireframe
    ensures segments == VerticalSegments(p, mode)
  {
    segments := [];
    for i := 0 to NumSegments
      invariant |segments| == i
      invariant forall k :: 0 <= k < i ==> segments[k] == VerticalSegment(p, mode, k)
    {
      var segment := PaintVerticalSegment(p, mode, i);
      segments := segments + [segment];
    }
  }

  /** One pass of the vertical segment loop. */
  method PaintVerticalSegment(p: Placement, mode: VisualizationMode, i: nat) returns (segment: GradientRect)
    requires mode != Wireframe && i < NumSegments
    ensures segment == VerticalSegment(p, mode, i)
  {
    var x, y := p.x, p.y;
    var barWidth := VerticalWidth(p);
    var barHeight := VerticalHeight(p);
    var segmentHeight := barHeight / 100.0;
    var t1 := i as real / 100.0;
    var t2 := (i + 1) as real / 100.0;
    var color1 := FloatToColor(1.0 - t1, mode);
    var color2 := FloatToColor(1.0 - t2, mode);
    var p1 := Point(x, y + i as real * segmentHeight);
    var p2 := Point(x + barWidth, y + (i + 1) as real * segmentHeight);
    segment := GradientRect(p1, p2, color1, color1, color2, color2);
  }


  /** The vertical label loop: for i = 0 .. 5 a tick on the right edge at fraction i/5 of
      the height and the value max - (i/5) * (max - min) printed beside it. */
  method PaintVerticalLabels(p: Placement, s: LegendScale) returns (ticks: seq<Tick>, labels: seq<Label>)
    ensures ticks == VerticalTicks(p) && labels == VerticalLabels(p, s)
  {
    var x, y := p.x, p.y;
    var barWidth := VerticalWidth(p);
    var barHeight := VerticalHeight(p);
    ticks, labels := [], [];
    for i := 0 to NumLabels + 1
      invariant |ticks| == i && |labels| == i
      invariant forall k :: 0 <= k < i ==> ticks[k] == VerticalTick(p, k)
      invariant forall k :: 0 <= k < i ==> labels[k] == VerticalLabel(p, s, k)
    {
      var t := i as real / 5.0;
      var value := s.maxValue - t * (s.maxValue - s.minValue);
      var yPos := y + t * barHeight;
      ticks := ticks + [Tick(Point(x + barWidth, yPos), Point(x + barWidth + 5.0, yPos))];
      labels := labels + [Label(Point(x + barWidth + 8.0, yPos - 7.0), value)];
    }
  }

  /** The horizontal gradient loop: segment i spans [i, i + 1] * barWidth / 100 from the
      left, its corners given the colours of i/100 and (i + 1)/100. */
  method PaintHorizontalSegments(p: Placement, mode: VisualizationMode) returns (segments: seq<GradientRect>)
    requires mode != Wireframe
    ensures segments == HorizontalSegments(p, mode)
  {
    segments := [];
    for i := 0 to NumSegments
      invariant |segments| == i
      invariant forall k :: 0 <= k < i ==> segments[k] == HorizontalSegment(p, mode, k)
    {
      var segment := PaintHorizontalSegment(p, mode, i);
      segments := segments + [segment];
    }
  }

  /** One pass of the horizontal segment loop. */
  method PaintHorizontalSegment(p: Placement, mode: VisualizationMode, i: nat) returns (segment: GradientRect)
    requires mode != Wireframe && i < NumSegments
    ensures segment == HorizontalSegment(p, mode, i)
  {
    var x, y := p.x, p.y;
    var barWidth := HorizontalWidth(p);
    var barHeight := HorizontalHeight(p);
    var segmentWidth := barWidth / 100.0;
    var t1 := i as real / 100.0;
    var t2 := (i + 1) as real / 100.0;
    var color1 := FloatToColor(t1, mode);
    var color2 := FloatToColor(t2, mode);
    var p1 := Point(x + i as real * segmentWidth, y);
    var p2 := Point(x + (i + 1) as real * segmentWidth, y + barHeight);
    segment := GradientRect(p1, p2, color1, color1, color2, color2);
  }


  /** The horizontal label loop: for i = 0 .. 5 a tick under the bottom edge at fraction i/5
      of the width and the value min + (i/5) * (max - min) printed under it. */
  method PaintHorizontalLabels(p: Placement, s: LegendScale) returns (ticks: seq<Tick>, labels: seq<Label>)
    ensures ticks == HorizontalTicks(p) && labels == HorizontalLabels(p, s)
  {
    var x, y := p.x, p.y;
    var barWidth := HorizontalWidth(p);
    var barHeight := HorizontalHeight(p);
    ticks, labels := [], [];
    for i := 0 to NumLabels + 1
      invariant |ticks| == i && |labels| == i
      invariant forall k :: 0 <= k < i ==> ticks[k] == HorizontalTick(p, k)
      invariant forall k :: 0 <= k < i ==> labels[k] == HorizontalLabel(p, s, k)
    {
      var t := i as real / 5.0;
      var value := s.minValue + t * (s.maxValue - s.minValue);
      var xPos := x + t * barWidth;
      ticks := ticks + [Tick(Point(xPos, y + barHeight), Point(xPos, y + barHeight + 5.0))];
      labels := labels + [Label(Point(xPos - 7.0, y + barHeight + 8.0), value)];
    }
  }
}
