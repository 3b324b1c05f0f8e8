/**
 * The story content of StoryContent: two tap zones telling a quick tap
 * (navigate) from a hold (pause only), and the image height for an aspect
 * ratio. Press times are the parameter `now` in milliseconds.
 */
module Content {
  import opened StoryTypes

  /** A press shorter than this is a tap. */
  const QuickTapMs: int := 200

  /** A press that started at `pressStart` and is released at `now` navigates. */
  predicate IsQuickTap(pressStart: int, now: int)
  {
    now - pressStart < QuickTapMs
  }

  /** The callbacks the tap zones invoke. */
  datatype Call = OnPressIn | OnPressOut | OnTapLeft | OnTapRight

  /**
   * The ratio names the hook distinguishes. A name it does not know is
   * split at ':' and both halves parsed as numbers; `parsed` is that pair,
   * or None when there are not two parts or a part is not a number.
   */
  datatype AspectRatio =
    | Ratio16x9
    | Ratio4x5
    | Ratio1x1
    | Full
    | Named(parsed: Option<(real, real)>)

  const DefaultAspectRatio: AspectRatio := Ratio4x5

  /** calculateImageHeight; 'full' takes the screen's height, a parameter here. */
  function ImageHeight(ratio: AspectRatio, width: real, screenHeight: real): real
  {
    match ratio
    case Ratio16x9 => (width * 9.0) / 16.0
    case Ratio4x5 => (width * 5.0) / 4.0
    case Ratio1x1 => width
    case Full => screenHeight
    case Named(parsed) =>
      if parsed.Some? && parsed.value.0 > 0.0 then
        (width * parsed.value.1) / parsed.value.0
      else
        (width * 5.0) / 4.0
  }

  /** Each named ratio gives the height its two numbers give when parsed. */
  lemma NamedRatiosAgreeWithParsed(width: real, screenHeight: real)
    ensures ImageHeight(Ratio16x9, width, screenHeight) == ImageHeight(Named(Some((16.0, 9.0))), width, screenHeight)
    ensures ImageHeight(Ratio4x5, width, screenHeight) == ImageHeight(Named(Some((4.0, 5.0))), width, screenHeight)
    ensures ImageHeight(Ratio1x1, width, screenHeight) == ImageHeight(Named(Some((1.0, 1.0))), width, screenHeight)
  {
  }

  /** Every ratio but 'full' keeps height / width at its second number over its first. */
  lemma HeightScalesWithWidth(ratio: AspectRatio, width: real, screenHeight: real)
    ensures var h := ImageHeight(ratio, width, screenHeight);
      match ratio
      case Ratio16x9 => h * 16.0 == width * 9.0
      case Ratio4x5 => h * 4.0 == width * 5.0
      case Ratio1x1 => h == width
      case Full => h == screenHeight
      case Named(parsed) =>
        if parsed.Some? && parsed.value.0 > 0.0 then h * parsed.value.0 == width * parsed.value.1
        else h * 4.0 == width * 5.0
  {
    match ratio
    case Named(parsed) =>
      if parsed.Some? && parsed.value.0 > 0.0 {
        var q := (width * parsed.value.1) / parsed.value.0;
        assert q * parsed.value.0 == width * parsed.value.1;
      }
    case _ =>
  }

  /** A malformed ratio, or one whose width part is not positive, falls back to the default 4:5. */
  lemma MalformedFallsBackToDefault(parsed: Option<(real, real)>, width: real, screenHeight: real)
    requires parsed.None? || parsed.value.0 <= 0.0
    ensures ImageHeight(Named(parsed), width, screenHeight) == ImageHeight(DefaultAspectRatio, width, screenHeight)
  {
  }

  class TapZones {
    var pressStartTime: int

    constructor ()
      ensures pressStartTime == 0
    {
      pressStartTime := 0;
    }

    method HandlePressIn(now: int) returns (calls: seq<Call>)
      modifies this
      ensures pressStartTime == now && calls == [OnPressIn]
    {
      pressStartTime := now;
      calls := [OnPressIn];
    }

    method HandlePressOut() returns (calls: seq<Call>)
      ensures calls == [OnPressOut]
    {
      calls := [OnPressOut];
    }

    method HandleTapLeft(now: int) returns (calls: seq<Call>)
      ensures calls == if now - pressStartTime < 200 then [OnTapLeft] else []
    {
      var pressDuration := now - pressStartTime;
      calls := [];
      if pressDuration < QuickTapMs {
        calls := [OnTapLeft];
      }
    }

    method HandleTapRight(now: int) returns (calls: seq<Call>)
      ensures calls == if now - pressStartTime < 200 then [OnTapRight] else []
    {
      var pressDuration := now - pressStartTime;
      calls := [];
      if pressDuration < QuickTapMs {
        calls := [OnTapRight];
      }
    }
  }

  /**
   * A whole press on either zone: press-in, press-out, then the press
   * handler. It always pauses and resumes; it navigates only when it lasted
   * under 200 ms.
   */
  method Press(zones: TapZones, right: bool, pressedAt: int, releasedAt: int) returns (calls: seq<Call>)
    modifies zones
    ensures zones.pressStartTime == pressedAt
    ensures |calls| == if IsQuickTap(pressedAt, releasedAt) then 3 else 2
    ensures calls[..2] == [OnPressIn, OnPressOut]
    ensures IsQuickTap(pressedAt, releasedAt) ==> calls[2] == if right then OnTapRight else OnTapLeft
    ensures OnTapLeft !in calls && OnTapRight !in calls <==> releasedAt - pressedAt >= 200
  {
    var pressIn := zones.HandlePressIn(pressedAt);
    var pressOut := zones.HandlePressOut();
    var tap;
    if right {
      tap := zones.HandleTapRight(releasedAt);
    } else {
      tap := zones.HandleTapLeft(releasedAt);
    }
    calls := pressIn + pressOut + tap;
  }
}
