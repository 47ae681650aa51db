/**
 * Screen geometry and the per-frame pointer sample shared by the window
 * kernel and the dropdown. Coordinates are reals: the source keeps them in
 * float32, and none of the logic modelled here depends on its rounding.
 */
module Geometry {

  datatype Vec2 = Vec2(x: real, y: real)

  datatype Rect = Rect(x: real, y: real, width: real, height: real)

  /**
   * The point-in-rectangle test. The library the source calls for it is not
   * part of this model; this is its half-open definition: the left and top
   * edges are inside, the right and bottom edges are not.
   */
  predicate Contains(r: Rect, p: Vec2)
  {
    r.x <= p.x < r.x + r.width && r.y <= p.y < r.y + r.height
  }

  /**
   * One frame of pointer input: the position, whether the left button went
   * down in this frame (`pressed`), whether it is held (`down`), and the
   * wheel movement.
   */
  datatype Pointer = Pointer(pos: Vec2, pressed: bool, down: bool, wheel: real)

  /** A press is also a held button: a sample the input library can report. */
  predicate WellFormed(p: Pointer)
  {
    p.pressed ==> p.down
  }

  /**
   * Two consecutive samples of a real pointer: a press means the button was
   * up in the frame before.
   */
  predicate Follows(prev: Pointer, p: Pointer)
  {
    p.pressed ==> !prev.down
  }

  function Max(a: real, b: real): real
  {
    if a < b then b else a
  }
}
