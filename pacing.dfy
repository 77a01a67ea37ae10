/** The two numeric rules of the stage and the playback loop: how the canvas
    size is chosen, and how long the loop waits before the next frame. */
module Pacing {
  import opened State

  /** `canvas.width = state.width; canvas.width ||= natural`: a configured size
      of at least one pixel wins, truncated to whole pixels; anything else (unset,
      zero, a fraction below one) falls back to the element's displayed size. */
  function Coalesce(configured: Value, natural: nat): (n: nat)
    ensures configured.Num? && configured.x >= 1.0 ==> n as real <= configured.x < n as real + 1.0
    ensures !(configured.Num? && configured.x >= 1.0) ==> n == natural
    ensures n == 0 ==> natural == 0
  {
    if configured.Num? && configured.x >= 1.0 then configured.x.Floor else natural
  }

  function Max(a: real, b: real): real {
    if a < b then b else a
  }

  /** The delay before the next tick: what is left of one frame interval
      (1000/fps milliseconds) after the stage took `elapsed` milliseconds, never
      negative, and zero ("as fast as possible") when fps is not a positive number. */
  function FrameWait(fps: Value, elapsed: real): (wait: real)
    ensures wait >= 0.0
    ensures !(fps.Num? && fps.x > 0.0) ==> wait == 0.0
    ensures fps.Num? && fps.x > 0.0 ==> elapsed + wait >= 1000.0 / fps.x
    ensures fps.Num? && fps.x > 0.0 && elapsed <= 1000.0 / fps.x ==> elapsed + wait == 1000.0 / fps.x
    ensures fps.Num? && fps.x > 0.0 && elapsed >= 1000.0 / fps.x ==> wait == 0.0
  {
    if fps.Num? && fps.x > 0.0 then Max(0.0, 1000.0 / fps.x - elapsed) else 0.0
  }
}
