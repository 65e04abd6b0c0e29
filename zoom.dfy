/** The zoom controller of the shells: the `scale` state (log10 W shown at
    the centre of the view), written by the slider and by the mouse wheel.
    The koftheuniverse shell also keeps `lastWheelTime` and drops wheel
    events that arrive within one 60 Hz frame of the last accepted one. */
module Zoom {
  import opened RealMath
  import opened ShellConfig

  /** `Math.min(MAX_SCALE, Math.max(MIN_SCALE, v))`. */
  function Clamp(lo: real, hi: real, v: real): (r: real)
    requires lo <= hi
    ensures lo <= r <= hi
    ensures lo <= v <= hi ==> r == v
    ensures v < lo ==> r == lo
    ensures v > hi ==> r == hi
  {
    Min(hi, Max(lo, v))
  }

  /** Clamping a clamped value changes nothing. */
  lemma ClampIdempotent(lo: real, hi: real, v: real)
    requires lo <= hi
    ensures Clamp(lo, hi, Clamp(lo, hi, v)) == Clamp(lo, hi, v)
  {
  }

  /** Milliseconds in one frame at 60 frames per second (`1000 / fps`). */
  const FrameMillis: real := 1000.0 / 60.0

  /** A wheel event at time `now` is dropped when the shell rate-limits and
      less than one frame has passed since the last accepted event. */
  predicate Throttled(shell: Shell, lastWheelTime: int, now: int)
    ensures Throttled(shell, lastWheelTime, now) <==>
              shell.rateLimited && now - lastWheelTime <= 16
  {
    shell.rateLimited && ((now - lastWheelTime) as real) < FrameMillis
  }

  class ZoomController {
    const shell: Shell
    var scale: real
    var lastWheelTime: int

    ghost predicate Valid()
      reads this
    {
      ValidShell(shell) && shell.minScale <= scale <= shell.maxScale
    }

    /** `useState(initialScale)` and `useRef(0)`. */
    constructor (s: Shell)
      requires ValidShell(s)
      ensures Valid()
      ensures shell == s && scale == s.initialScale && lastWheelTime == 0
    {
      shell := s;
      scale := s.initialScale;
      lastWheelTime := 0;
    }

    /** handleSliderChange: the parsed slider value is stored unchanged; the
        range input's own min and max keep it within the zoom range. */
    method HandleSliderChange(value: real)
      requires Valid()
      requires shell.minScale <= value <= shell.maxScale
      modifies this
      ensures Valid()
      ensures scale == value && lastWheelTime == old(lastWheelTime)
    {
      scale := value;
    }

    /** handleWheel, with `Date.now()` passed in as `now`. */
    method HandleWheel(deltaY: real, now: int)
      requires Valid()
      modifies this
      ensures Valid()
      ensures Throttled(shell, old(lastWheelTime), now) ==>
                scale == old(scale) && lastWheelTime == old(lastWheelTime)
      ensures !Throttled(shell, old(lastWheelTime), now) ==>
                scale == Clamp(shell.minScale, shell.maxScale,
                               old(scale) + deltaY * shell.wheelSensitivity) &&
                lastWheelTime == (if shell.rateLimited then now else old(lastWheelTime))
    {
      if shell.rateLimited {
        if ((now - lastWheelTime) as real) < FrameMillis {
          return;
        }
        lastWheelTime := now;
      }
      var delta := deltaY * shell.wheelSensitivity;
      var newScale := Min(shell.maxScale, Max(shell.minScale, scale + delta));
      scale := newScale;
    }
  }
}
