/**
 * The pan-gesture arbiter of useStoryGestures: each update is classified as
 * vertical or horizontal by comparing magnitudes, and each release is turned
 * into exactly one of close, next user, previous user or resume. The shared
 * values translateX and translateY are fields holding the values their
 * animations settle at; callbacks come back as a single emitted intent.
 */
module StoryGestures {

  const SwipeThreshold: real := 100.0
  const VelocityThreshold: real := 500.0

  function Abs(x: real): real
  {
    if x < 0.0 then -x else x
  }

  datatype Axis = Vertical | Horizontal

  /** Vertical only when |ty| is strictly larger; a tie is horizontal. */
  function AxisOf(translationX: real, translationY: real): Axis
  {
    if Abs(translationY) > Abs(translationX) then Vertical else Horizontal
  }

  /** The one callback a release invokes. */
  datatype Intent = Close | NextUser | PrevUser | Resume

  predicate ShouldClose(translationY: real, velocityY: real)
  {
    translationY > SwipeThreshold || velocityY > VelocityThreshold
  }

  predicate ShouldSwipe(translationX: real, velocityX: real)
  {
    Abs(translationX) > SwipeThreshold || Abs(velocityX) > VelocityThreshold
  }

  /** onEnd's decision. */
  function ReleaseIntent(
    translationX: real, translationY: real, velocityX: real, velocityY: real,
    canGoNext: bool, canGoPrev: bool): Intent
  {
    if AxisOf(translationX, translationY) == Vertical then
      if ShouldClose(translationY, velocityY) then Close else Resume
    else if ShouldSwipe(translationX, velocityX) then
      if translationX < 0.0 && canGoNext then NextUser
      else if translationX > 0.0 && canGoPrev then PrevUser
      else Resume
    else
      Resume
  }

  /**
   * A vertical release never navigates between users, a horizontal one
   * never closes; each intent happens exactly under its own condition.
   */
  lemma ReleaseExclusive(tx: real, ty: real, vx: real, vy: real, canGoNext: bool, canGoPrev: bool)
    ensures var i := ReleaseIntent(tx, ty, vx, vy, canGoNext, canGoPrev);
      && (AxisOf(tx, ty) == Vertical ==> i == Close || i == Resume)
      && (AxisOf(tx, ty) == Horizontal ==> i != Close)
      && (i == Close <==> Abs(ty) > Abs(tx) && (ty > 100.0 || vy > 500.0))
      && (i == NextUser <==> Abs(ty) <= Abs(tx) && (Abs(tx) > 100.0 || Abs(vx) > 500.0) && tx < 0.0 && canGoNext)
      && (i == PrevUser <==> Abs(ty) <= Abs(tx) && (Abs(tx) > 100.0 || Abs(vx) > 500.0) && tx > 0.0 && canGoPrev)
  {
  }

  /**
   * A 99 px horizontal drag at low speed springs back, a 101 px one changes
   * user; a blocked direction springs back, and an axis tie is horizontal.
   */
  lemma ThresholdBoundary()
    ensures ReleaseIntent(-99.0, 0.0, -10.0, 0.0, true, true) == Resume
    ensures ReleaseIntent(-101.0, 0.0, -10.0, 0.0, true, true) == NextUser
    ensures ReleaseIntent(99.0, 0.0, 10.0, 0.0, true, true) == Resume
    ensures ReleaseIntent(101.0, 0.0, 10.0, 0.0, true, true) == PrevUser
    ensures ReleaseIntent(-101.0, 0.0, 0.0, 0.0, false, true) == Resume
    ensures ReleaseIntent(100.0, 100.0, 0.0, 600.0, true, true) == Resume
  {
  }

  /** The displayed offsets. */
  datatype Offsets = Offsets(x: real, y: real)

  /** onUpdate: follow the dominant axis; an upward vertical drag changes nothing. */
  function UpdateOffsets(o: Offsets, translationX: real, translationY: real): Offsets
  {
    if AxisOf(translationX, translationY) == Vertical then
      if translationY > 0.0 then Offsets(0.0, translationY) else o
    else
      Offsets(translationX, 0.0)
  }

  /**
   * onEnd's offsets once every animation has settled: the close and the user
   * switches slide off and are put back to 0 by their completion callbacks;
   * the bounce-backs spring to 0 on the axes they touch.
   */
  function ReleaseOffsets(
    o: Offsets, translationX: real, translationY: real, velocityX: real, velocityY: real,
    canGoNext: bool, canGoPrev: bool): Offsets
  {
    if AxisOf(translationX, translationY) == Vertical then
      o.(y := 0.0)
    else if ShouldSwipe(translationX, velocityX) then
      o.(x := 0.0)
    else
      Offsets(0.0, 0.0)
  }

  lemma UpdateRules(o: Offsets, tx: real, ty: real)
    ensures Abs(ty) > Abs(tx) && ty > 0.0 ==> UpdateOffsets(o, tx, ty) == Offsets(0.0, ty)
    ensures Abs(ty) > Abs(tx) && ty <= 0.0 ==> UpdateOffsets(o, tx, ty) == o
    ensures Abs(ty) <= Abs(tx) ==> UpdateOffsets(o, tx, ty) == Offsets(tx, 0.0)
  {
  }

  /**
   * A gesture whose last update agrees with its release comes to rest at
   * (0, 0), unless that last update was an upward vertical drag, which leaves
   * the horizontal offset where it was.
   */
  lemma ReleaseAfterUpdateRests(
    o: Offsets, tx: real, ty: real, vx: real, vy: real, canGoNext: bool, canGoPrev: bool)
    ensures var settled := ReleaseOffsets(UpdateOffsets(o, tx, ty), tx, ty, vx, vy, canGoNext, canGoPrev);
      && settled.y == 0.0
      && (settled.x == 0.0 || (AxisOf(tx, ty) == Vertical && ty <= 0.0 && settled.x == o.x))
  {
  }

  class PanGesture {
    var translateX: real
    var translateY: real

    constructor ()
      ensures translateX == 0.0 && translateY == 0.0
    {
      translateX, translateY := 0.0, 0.0;
    }

    function Shown(): Offsets
      reads this
    {
      Offsets(translateX, translateY)
    }

    /** onStart: onPause is called, whatever happens next. */
    method OnStart() returns (pauseCalled: bool)
      ensures pauseCalled
    {
      pauseCalled := true;
    }

    method OnUpdate(translationX: real, translationY: real)
      modifies this
      ensures Shown() == UpdateOffsets(old(Shown()), translationX, translationY)
    {
      var isVertical := Abs(translationY) > Abs(translationX);
      if isVertical {
        if translationY > 0.0 {
          translateY := translationY;
          translateX := 0.0;
        }
      } else {
        translateX := translationX;
        translateY := 0.0;
      }
    }

    method OnEnd(translationX: real, translationY: real, velocityX: real, velocityY: real,
                 canGoNext: bool, canGoPrev: bool) returns (intent: Intent)
      modifies this
      ensures intent == ReleaseIntent(translationX, translationY, velocityX, velocityY, canGoNext, canGoPrev)
      ensures Shown()
        == ReleaseOffsets(old(Shown()), translationX, translationY, velocityX, velocityY, canGoNext, canGoPrev)
    {
      var isVertical := Abs(translationY) > Abs(translationX);
      if isVertical {
        if translationY > SwipeThreshold || velocityY > VelocityThreshold {
          translateY := 0.0;
          intent := Close;
        } else {
          translateY := 0.0;
          intent := Resume;
        }
      } else {
        var shouldSwipe := Abs(translationX) > SwipeThreshold || Abs(velocityX) > VelocityThreshold;
        if shouldSwipe {
          if translationX < 0.0 && canGoNext {
            translateX := 0.0;
            intent := NextUser;
          } else if translationX > 0.0 && canGoPrev {
            translateX := 0.0;
            intent := PrevUser;
          } else {
            translateX := 0.0;
            intent := Resume;
          }
        } else {
          translateX := 0.0;
          translateY := 0.0;
          intent := Resume;
        }
      }
    }
  }
}
