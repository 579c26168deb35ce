/**
  The per-frame timing record: frame start times, and a frames-per-second
  counter that is published and reset every time a whole second has been
  accumulated. Times are milliseconds, as the browser passes them to the
  frame callback.
*/
module FrameTiming {

  const ONE_SECOND: real := 1000.0

  /**
    How often the reduction loop runs on an accumulated time `acc`: not at all
    below one second, otherwise the number of whole seconds in `acc`, which
    leaves a remainder in [0, ONE_SECOND).
  */
  function WholeSeconds(acc: real): (k: nat)
    ensures k == 0 <==> acc < ONE_SECOND
    ensures k > 0 ==> 0.0 <= acc - k as real * ONE_SECOND < ONE_SECOND
  {
    if acc < ONE_SECOND then 0 else (acc / ONE_SECOND).Floor
  }

  /** A loop count that leaves a remainder in [0, ONE_SECOND) is WholeSeconds. */
  lemma WholeSecondsUnique(acc: real, k: nat)
    requires k > 0
    requires 0.0 <= acc - k as real * ONE_SECOND < ONE_SECOND
    ensures k == WholeSeconds(acc)
  {
    var m := WholeSeconds(acc);
    assert m > 0;
    assert (k - m) as real * ONE_SECOND < ONE_SECOND;
    assert (m - k) as real * ONE_SECOND < ONE_SECOND;
  }

  class Timing {
    var frameStartTime: real
    var previousFrameStartTime: real
    var fpsTimer: real
    var fps: int
    var currentFps: int

    /** The zeroed record with the start time of the first frame. */
    constructor (now: real)
      ensures frameStartTime == now
      ensures previousFrameStartTime == 0.0 && fpsTimer == 0.0 && fps == 0 && currentFps == 0
    {
      frameStartTime := now;
      previousFrameStartTime := 0.0;
      fpsTimer := 0.0;
      fps := 0;
      currentFps := 0;
    }

    /**
      `update_timing`: shift the frame times, return the frame's duration,
      and for every whole second accumulated publish `fps` as `currentFps`
      and reset it. It never increments `fps`.
    */
    method UpdateTiming(time: real) returns (dt: real)
      modifies this
      ensures previousFrameStartTime == old(frameStartTime) && frameStartTime == time
      ensures dt == time - old(frameStartTime)
      ensures var k := WholeSeconds(old(fpsTimer) + dt);
        fpsTimer == old(fpsTimer) + dt - k as real * ONE_SECOND &&
        (k == 0 ==> fps == old(fps) && currentFps == old(currentFps)) &&
        (k == 1 ==> fps == 0 && currentFps == old(fps)) &&
        (k >= 2 ==> fps == 0 && currentFps == 0)
      ensures fpsTimer < ONE_SECOND
      ensures old(fpsTimer) + dt >= 0.0 ==> fpsTimer >= 0.0
    {
      previousFrameStartTime := frameStartTime;
      frameStartTime := time;

      dt := frameStartTime - previousFrameStartTime;

      fpsTimer := fpsTimer + dt;
      ghost var accumulated := fpsTimer;
      ghost var k: nat := 0;
      while fpsTimer >= ONE_SECOND
        invariant previousFrameStartTime == old(frameStartTime) && frameStartTime == time
        invariant fpsTimer == accumulated - k as real * ONE_SECOND
        invariant k > 0 ==> fpsTimer >= 0.0
        invariant k == 0 ==> fps == old(fps) && currentFps == old(currentFps)
        invariant k == 1 ==> fps == 0 && currentFps == old(fps)
        invariant k >= 2 ==> fps == 0 && currentFps == 0
        decreases fpsTimer.Floor
      {
        currentFps := fps;
        fpsTimer := fpsTimer - ONE_SECOND;
        fps := 0;
        k := k + 1;
      }
      if k > 0 {
        WholeSecondsUnique(accumulated, k);
      }
    }

    /** The caller's `++fps` after a frame has been drawn. */
    method CountFrame()
      modifies this
      ensures fps == old(fps) + 1
      ensures frameStartTime == old(frameStartTime) && previousFrameStartTime == old(previousFrameStartTime)
      ensures fpsTimer == old(fpsTimer) && currentFps == old(currentFps)
    {
      fps := fps + 1;
    }
  }
}
