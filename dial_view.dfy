/** The fan-speed dial widget: its state, the click transition, the size
    adaptation and what one draw pass puts on the canvas.

    Angles are exact, in units of pi/8; a point on the canvas is kept
    symbolic as a centre, an orbit radius and an angle slot, standing for
    (cx + orbit * cos(slot * pi/8), cy + orbit * sin(slot * pi/8)). */
module Dial {
  import opened FanSpeeds

  datatype Option<T> = None | Some(value: T) {
    function GetOr(default: T): T {
      match this
      case Some(v) => v
      case None => default
    }
  }

  /** Distance of the label orbit beyond the dial's edge. */
  const RadiusOffsetLabel: int := 30
  /** Distance of the indicator orbit from the dial's edge (inwards). */
  const RadiusOffsetIndicator: int := -35

  /** The platform's neutral and black colours, as signed 32-bit ARGB values
      (0xFF888888 and 0xFF000000). */
  const Gray: int := -7829368
  const Black: int := -16777216

  /** The display label of each speed, as resolved from its string resource. */
  datatype Labels = Labels(off: string, low: string, medium: string, high: string) {
    function Of(s: FanSpeed): string {
      match s
      case Off => off
      case Low => low
      case Medium => medium
      case High => high
    }
  }

  /** What the layout supplies when the view is inflated: the three styled
      colours, each possibly absent, and the view's own content description. */
  datatype Attributes = Attributes(
    fanColor1: Option<int>,
    fanColor2: Option<int>,
    fanColor3: Option<int>,
    contentDescription: Option<string>)

  /** A point given by a centre, an orbit radius and an angle in units of pi/8. */
  datatype Point = Point(cx: int, cy: int, orbit: real, slot: nat)

  /** One call on the canvas, with the paint colour in force at the time. */
  datatype DrawOp =
    | DrawCircle(centre: Point, r: real, color: int)
    | DrawText(text: string, at: Point, color: int)

  function Min(a: int, b: int): int {
    if a <= b then a else b
  }

  /** Integer halving as the platform's `Int / 2` does it: truncating toward zero. */
  function Half(n: int): (r: int)
    ensures 0 <= n ==> 0 <= r && r + r <= n <= r + r + 1
    ensures n < 0 ==> r <= 0 && r + r - 1 <= n <= r + r
  {
    if 0 <= n then n / 2 else -((-n) / 2)
  }

  /** The dial radius for a view of w by h: 80% of half the smaller side. */
  function DialRadius(w: int, h: int): (r: real)
    ensures r == 0.4 * (Min(w, h) as real)
    ensures 0 <= w && 0 <= h ==> 0.0 <= r && r + r <= w as real && r + r <= h as real
  {
    (Min(w, h) as real) / 2.0 * 0.8
  }

  /** The angle at which the speed's label and indicator sit: 9*pi/8 plus pi/4
      (an eighth of a turn) per ordinal step, in units of pi/8. Every slot is an odd
      multiple of pi/8 strictly between pi and 2*pi. */
  function AngleSlot(s: FanSpeed): (a: nat)
    ensures 9 <= a <= 15 && a % 2 == 1
  {
    9 + 2 * Ordinal(s)
  }

  /** Slots follow the ordinal order strictly, so the four slots are distinct. */
  lemma AngleSlotOrder(s: FanSpeed, t: FanSpeed)
    ensures Ordinal(s) < Ordinal(t) <==> AngleSlot(s) < AngleSlot(t)
    ensures AngleSlot(s) == AngleSlot(t) <==> s == t
  {
    OrdinalInjective(s, t);
  }

  /** A click moves the slot pi/4 (an eighth of a turn) onwards, except from
      HIGH, where it moves 3*pi/4 (three eighths of a turn) back to OFF. */
  lemma AngleSlotStep(s: FanSpeed)
    ensures s != High ==> AngleSlot(Next(s)) == AngleSlot(s) + 2
    ensures s == High ==> AngleSlot(Next(s)) + 6 == AngleSlot(s)
  {
  }

  /** The dial's fill colour: neutral gray when OFF, otherwise the configured
      colour of the speed, by ordinal. */
  function FillColor(s: FanSpeed, low: int, medium: int, max: int): (c: int)
    ensures c == [Gray, low, medium, max][Ordinal(s)]
  {
    match s
    case Off => Gray
    case Low => low
    case Medium => medium
    case High => max
  }

  /** With four distinct colours the fill colour tells the speed apart. */
  lemma FillColorIdentifiesSpeed(s: FanSpeed, t: FanSpeed, low: int, medium: int, max: int)
    requires Gray != low && Gray != medium && Gray != max
    requires low != medium && low != max && medium != max
    ensures FillColor(s, low, medium, max) == FillColor(t, low, medium, max) <==> s == t
  {
  }

  /** The centre of a width by height view. */
  function Centre(width: int, height: int): Point {
    Point(Half(width), Half(height), 0.0, 0)
  }

  /** The point on the given orbit around the view's centre at the speed's slot. */
  function SpeedPoint(s: FanSpeed, orbit: real, width: int, height: int): Point {
    Point(Half(width), Half(height), orbit, AngleSlot(s))
  }

  /** The label text of the speed at ordinal k, drawn in black on the label orbit. */
  function LabelMark(labels: Labels, radius: real, width: int, height: int, k: nat): DrawOp
    requires k < 4
  {
    var s := FromOrdinal(k);
    DrawText(labels.Of(s), SpeedPoint(s, radius + RadiusOffsetLabel as real, width, height), Black)
  }

  /** Everything one draw pass puts on the canvas, in order: the filled dial,
      the indicator dot for the current speed, and the four labels. */
  function Frame(speed: FanSpeed, low: int, medium: int, max: int, radius: real,
                 width: int, height: int, labels: Labels): seq<DrawOp>
  {
    [ DrawCircle(Centre(width, height), radius, FillColor(speed, low, medium, max)),
      DrawCircle(SpeedPoint(speed, radius + RadiusOffsetIndicator as real, width, height), radius / 12.0, Black) ]
    + seq(4, k requires 0 <= k < 4 => LabelMark(labels, radius, width, height, k))
  }

  /** The layout of a frame: the dial and all marks share the view's centre;
      the indicator sits at the same slot as the current speed's label, on
      an orbit 65 units smaller (which puts it on the same ray when the radius
      is at least 35, and on the opposite side of the centre below that);
      each label sits at its own slot, slots increasing
      with the ordinal. */
  lemma FrameLayout(speed: FanSpeed, low: int, medium: int, max: int, radius: real,
                    width: int, height: int, labels: Labels)
    ensures var f := Frame(speed, low, medium, max, radius, width, height, labels);
      && |f| == 6
      && f[0] == DrawCircle(Centre(width, height), radius, FillColor(speed, low, medium, max))
      && f[1].DrawCircle? && f[1].color == Black && f[1].r == radius / 12.0
      && f[1].centre.cx == Half(width) && f[1].centre.cy == Half(height)
      && f[1].centre.slot == f[2 + Ordinal(speed)].at.slot
      && f[2 + Ordinal(speed)].at.orbit - f[1].centre.orbit == 65.0
      && (forall k :: 2 <= k < 6 ==>
            f[k].DrawText? && f[k].color == Black && f[k].text == labels.Of(FromOrdinal(k - 2))
            && f[k].at == Point(Half(width), Half(height), radius + 30.0, 9 + 2 * (k - 2)))
  {
  }

  class DialView {
    var fanSpeed: FanSpeed
    var contentDescription: Option<string>
    var lowColor: int
    var mediumColor: int
    var maxColor: int
    var radius: real
    var clickable: bool
    /** The scratch point that the position computation writes into. */
    var pointPosition: Point
    /** The colour of the shared paint. */
    var paintColor: int
    const labels: Labels
    /** The number of clicks the view itself has handled. */
    ghost var clicks: nat

    /** The speed is what that many clicks from OFF reach, and once the view
        has handled a click its description names the current speed. */
    ghost predicate Valid()
      reads this
    {
      && fanSpeed == Iterate(Off, clicks)
      && (clicks > 0 ==> contentDescription == Some(labels.Of(fanSpeed)))
    }

    /** Inflation: clickable, colours from the styled attributes (0 when
        absent), speed OFF, radius 0. */
    constructor (labels: Labels, attrs: Attributes)
      ensures Valid() && clicks == 0
      ensures this.labels == labels && clickable
      ensures lowColor == attrs.fanColor1.GetOr(0)
      ensures mediumColor == attrs.fanColor2.GetOr(0)
      ensures maxColor == attrs.fanColor3.GetOr(0)
      ensures contentDescription == attrs.contentDescription
      ensures fanSpeed == Off && radius == 0.0
      ensures pointPosition == Point(0, 0, 0.0, 0) && paintColor == Black
    {
      this.labels := labels;
      contentDescription := attrs.contentDescription;
      clickable := true;
      lowColor := attrs.fanColor1.GetOr(0);
      mediumColor := attrs.fanColor2.GetOr(0);
      maxColor := attrs.fanColor3.GetOr(0);
      radius := 0.0;
      fanSpeed := Off;
      pointPosition := Point(0, 0, 0.0, 0);
      paintColor := Black;
      clicks := 0;
    }

    /** A click: unless the superclass reports it handled, advance the speed
        one step and describe the new speed. Either way the click is handled. */
    method PerformClick(superHandled: bool) returns (handled: bool)
      requires Valid()
      modifies this`fanSpeed, this`contentDescription, this`clicks
      ensures Valid() && handled
      ensures superHandled ==>
                fanSpeed == old(fanSpeed) && contentDescription == old(contentDescription)
                && clicks == old(clicks)
      ensures !superHandled ==>
                fanSpeed == Next(old(fanSpeed)) && contentDescription == Some(labels.Of(fanSpeed))
                && clicks == old(clicks) + 1
    {
      if superHandled {
        return true;
      }
      fanSpeed := Next(fanSpeed);
      contentDescription := Some(labels.Of(fanSpeed));
      clicks := clicks + 1;
      handled := true;
    }

    /** A size change recomputes the radius and nothing else. */
    method OnSizeChanged(w: int, h: int, oldw: int, oldh: int)
      requires Valid()
      modifies this`radius
      ensures Valid() && radius == DialRadius(w, h)
    {
      radius := DialRadius(w, h);
    }

    /** Writes the position of the speed's mark on the given orbit into the
        scratch point. */
    method ComputeXYForSpeed(pos: FanSpeed, orbit: real, width: int, height: int)
      modifies this`pointPosition
      ensures pointPosition == SpeedPoint(pos, orbit, width, height)
    {
      pointPosition := Point(Half(width), Half(height), orbit, AngleSlot(pos));
    }

    /** One draw pass on a width by height view: returns the canvas calls in
        order, leaving the paint black and the scratch point at HIGH's label. */
    method OnDraw(width: int, height: int) returns (canvas: seq<DrawOp>)
      requires Valid()
      modifies this`pointPosition, this`paintColor
      ensures Valid()
      ensures canvas == Frame(fanSpeed, lowColor, mediumColor, maxColor, radius, width, height, labels)
      ensures paintColor == Black
      ensures pointPosition == SpeedPoint(High, radius + RadiusOffsetLabel as real, width, height)
    {
      paintColor := FillColor(fanSpeed, lowColor, mediumColor, maxColor);
      canvas := [DrawCircle(Point(Half(width), Half(height), 0.0, 0), radius, paintColor)];
      var markerRadius := radius + RadiusOffsetIndicator as real;
      ComputeXYForSpeed(fanSpeed, markerRadius, width, height);
      paintColor := Black;
      canvas := canvas + [DrawCircle(pointPosition, radius / 12.0, paintColor)];
      var labelRadius := radius + RadiusOffsetLabel as real;
      var entries := Entries();
      for i := 0 to |entries|
        invariant |canvas| == 2 + i
        invariant canvas[..2] == Frame(fanSpeed, lowColor, mediumColor, maxColor, radius, width, height, labels)[..2]
        invariant forall k :: 0 <= k < i ==> canvas[2 + k] == LabelMark(labels, radius, width, height, k)
        invariant paintColor == Black
        invariant i > 0 ==> pointPosition == SpeedPoint(entries[i - 1], labelRadius, width, height)
      {
        ComputeXYForSpeed(entries[i], labelRadius, width, height);
        OrdinalInjective(entries[i], FromOrdinal(i));
        canvas := canvas + [DrawText(labels.Of(entries[i]), pointPosition, paintColor)];
      }
      ghost var f := Frame(fanSpeed, lowColor, mediumColor, maxColor, radius, width, height, labels);
      assert forall j :: 0 <= j < 6 ==> canvas[j] == f[j] by {
        forall j | 0 <= j < 6 ensures canvas[j] == f[j] {
          if j < 2 {
            assert canvas[..2][j] == f[..2][j];
          }
        }
      }
    }
  }
}
