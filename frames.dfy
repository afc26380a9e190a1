/** The frame axis: the project frame rate and the float-to-int conversions
    the source applies to times and lengths (Python's `int`, `round`,
    `math.floor` and `math.ceil`), over exact reals. */
module FrameMath {
  /** PROJECT_FPS. */
  const ProjectFps: int := 30

  function Floor(x: real): (r: int)
    ensures r as real <= x < r as real + 1.0
  {
    x.Floor
  }

  function Ceil(x: real): (r: int)
    ensures r as real - 1.0 < x <= r as real
  {
    -((-x).Floor)
  }

  /** Python's `int(x)` on a float: truncation toward zero. */
  function Trunc(x: real): (r: int)
    ensures x >= 0.0 ==> 0 <= r && r as real <= x < r as real + 1.0
    ensures x < 0.0 ==> r <= 0 && r as real - 1.0 < x <= r as real
  {
    if x >= 0.0 then Floor(x) else -Floor(-x)
  }

  lemma TruncMonotone(x: real, y: real)
    requires x <= y
    ensures Trunc(x) <= Trunc(y)
  {
  }

  /** Python's `round(x)`: the nearest integer, ties to the even one. */
  function RoundHalfEven(x: real): (r: int)
    ensures -0.5 <= x - r as real <= 0.5
    ensures (x - r as real == 0.5 || r as real - x == 0.5) ==> r % 2 == 0
  {
    var f := Floor(x);
    var d := x - f as real;
    if d < 0.5 then f else if d > 0.5 then f + 1 else if f % 2 == 0 then f else f + 1
  }

  /** The two postconditions of RoundHalfEven pin the result down. */
  lemma RoundHalfEvenUnique(x: real, k: int)
    requires -0.5 <= x - k as real <= 0.5
    requires (x - k as real == 0.5 || k as real - x == 0.5) ==> k % 2 == 0
    ensures k == RoundHalfEven(x)
  {
  }

  /** SongItem.calculate_frame_qty: `round(length_ms / 1000 * PROJECT_FPS)`. */
  function RoundedFrameQty(lengthMs: real): int
  {
    RoundHalfEven(lengthMs / 1000.0 * ProjectFps as real)
  }

  /** calculate_frame_quantity: `math.ceil((length_ms / 1000) * fps)`. */
  function CeiledFrameQty(lengthMs: real, fps: int): (r: int)
    ensures r as real - 1.0 < lengthMs / 1000.0 * fps as real <= r as real
  {
    Ceil(lengthMs / 1000.0 * fps as real)
  }

  /** The two frame counts of a song never differ by more than one frame,
      the ceiling being the larger. */
  lemma FrameQtyRoundingGap(lengthMs: real)
    ensures 0 <= CeiledFrameQty(lengthMs, ProjectFps) - RoundedFrameQty(lengthMs) <= 1
  {
  }
}
