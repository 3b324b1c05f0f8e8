/**
 * The swipe-down-to-close gesture of useVerticalCloseGesture. The gesture
 * library's events become method calls with the event's translation and
 * velocity as parameters; the shared value `translateY` is a field holding
 * the value each animation settles at. Callbacks come back as emitted calls.
 */
module VerticalClose {

  const SwipeDownThreshold: real := 100.0
  const CloseVelocity: real := 500.0

  /** The callbacks the gesture invokes. */
  datatype Call = OnPause | OnResume | OnClose

  /** The release rule: strictly past the distance, or strictly faster than the velocity. */
  predicate ShouldClose(translationY: real, velocityY: real)
  {
    translationY > SwipeDownThreshold || velocityY > CloseVelocity
  }

  /** The calls a release makes. */
  function ReleaseCalls(translationY: real, velocityY: real): seq<Call>
  {
    if ShouldClose(translationY, velocityY) then [OnClose] else [OnResume]
  }

  /** Every release makes exactly one call: onClose iff the rule says so, else onResume. */
  lemma ReleaseExclusive(translationY: real, velocityY: real)
    ensures |ReleaseCalls(translationY, velocityY)| == 1
    ensures ReleaseCalls(translationY, velocityY) == [OnClose]
      <==> translationY > 100.0 || velocityY > 500.0
    ensures OnResume in ReleaseCalls(translationY, velocityY)
      <==> translationY <= 100.0 && velocityY <= 500.0
    ensures !(OnClose in ReleaseCalls(translationY, velocityY) && OnResume in ReleaseCalls(translationY, velocityY))
  {
  }

  /** The thresholds are strict: exactly 100 px or exactly 500 px/s does not close. */
  lemma ThresholdsAreStrict()
    ensures !ShouldClose(100.0, 500.0)
    ensures ShouldClose(100.5, 0.0) && ShouldClose(0.0, 500.5)
    ensures ShouldClose(0.0, 501.0) && !ShouldClose(99.0, 0.0) && ShouldClose(101.0, 0.0)
  {
  }

  class VerticalCloseGesture {
    var translateY: real

    constructor ()
      ensures translateY == 0.0
    {
      translateY := 0.0;
    }

    /** onStart: pause, whatever happens next. */
    method OnStart() returns (calls: seq<Call>)
      ensures calls == [OnPause]
    {
      calls := [OnPause];
    }

    /** onUpdate: only a downward translation moves the view. */
    method OnUpdate(translationY: real)
      modifies this
      ensures translateY == if translationY > 0.0 then translationY else old(translateY)
    {
      if translationY > 0.0 {
        translateY := translationY;
      }
    }

    /**
     * onEnd: slide off to `screenHeight` and close, or spring back to 0 and
     * resume. The 250 ms timing and the spring curve are not modelled; the
     * close call is the one made when the slide finishes.
     */
    method OnEnd(translationY: real, velocityY: real, screenHeight: real) returns (calls: seq<Call>)
      modifies this
      ensures calls == ReleaseCalls(translationY, velocityY)
      ensures translateY == if ShouldClose(translationY, velocityY) then screenHeight else 0.0
    {
      if translationY > SwipeDownThreshold || velocityY > CloseVelocity {
        translateY := screenHeight;
        calls := [OnClose];
      } else {
        translateY := 0.0;
        calls := [OnResume];
      }
    }

    /** The effect on [visible]: back to rest whenever the viewer is shown. */
    method VisibleEffect(visible: bool)
      modifies this
      ensures translateY == if visible then 0.0 else old(translateY)
    {
      if visible {
        translateY := 0.0;
      }
    }
  }
}
