/** Screen constants and the integer rectangle that pygame uses for sprite boxes. */
module Geometry {

  const SCREEN_WIDTH: int := 900
  const SCREEN_HEIGHT: int := 600

  /** Pixel dimensions of an image (a loaded or rotated surface). */
  datatype Size = Size(w: nat, h: nat)

  /** A pygame.Rect: top-left corner and size; edges and centre are derived.
      The centre uses integer division, as pygame does for its int rectangles. */
  datatype Rect = Rect(x: int, y: int, w: nat, h: nat) {

    function Left(): int { x }
    function Right(): int { x + w }
    function Top(): int { y }
    function Bottom(): int { y + h }
    function CenterX(): int { x + w / 2 }
    function CenterY(): int { y + h / 2 }

    /** move_ip(dx, dy): shift the box, keep its size. */
    function Move(dx: int, dy: int): (r: Rect)
      ensures r.Left() == Left() + dx && r.Top() == Top() + dy
      ensures r.w == w && r.h == h
    {
      Rect(x + dx, y + dy, w, h)
    }

    /** Assigning rect.left: moves the box horizontally so that its left edge is v. */
    function WithLeft(v: int): (r: Rect)
      ensures r.Left() == v && r.y == y && r.w == w && r.h == h
    {
      Rect(v, y, w, h)
    }

    /** Assigning rect.right: moves the box horizontally so that its right edge is v. */
    function WithRight(v: int): (r: Rect)
      ensures r.Right() == v && r.y == y && r.w == w && r.h == h
    {
      Rect(v - w, y, w, h)
    }

    /** Assigning rect.top: moves the box vertically so that its top edge is v. */
    function WithTop(v: int): (r: Rect)
      ensures r.Top() == v && r.x == x && r.w == w && r.h == h
    {
      Rect(x, v, w, h)
    }

    /** Assigning rect.bottom: moves the box vertically so that its bottom edge is v. */
    function WithBottom(v: int): (r: Rect)
      ensures r.Bottom() == v && r.x == x && r.w == w && r.h == h
    {
      Rect(x, v - h, w, h)
    }
  }

  /** surface.get_rect(bottomleft = (left, bottom)). */
  function AnchoredBottomLeft(image: Size, left: int, bottom: int): (r: Rect)
    ensures r.Left() == left && r.Bottom() == bottom
    ensures r.w == image.w && r.h == image.h
  {
    Rect(left, bottom - image.h, image.w, image.h)
  }

  /** surface.get_rect(center = (cx, cy)): the box of the given size whose centre is exactly (cx, cy). */
  function Centered(image: Size, cx: int, cy: int): (r: Rect)
    ensures r.CenterX() == cx && r.CenterY() == cy
    ensures r.w == image.w && r.h == image.h
  {
    Rect(cx - image.w / 2, cy - image.h / 2, image.w, image.h)
  }

  /** Whether the pixel (px, py) lies in the half-open box [left, right) x [top, bottom). */
  predicate Covers(r: Rect, px: int, py: int)
  {
    r.Left() <= px < r.Right() && r.Top() <= py < r.Bottom()
  }

  /** Rect.colliderect, taken to be the overlap of the half-open boxes
      [left, right) x [top, bottom): boxes that only touch do not collide, and
      a box of zero width or height collides with nothing. */
  predicate Overlaps(a: Rect, b: Rect)
    // colliding boxes share the top-left pixel of their intersection
    ensures Overlaps(a, b) ==>
      var px := if a.Left() < b.Left() then b.Left() else a.Left();
      var py := if a.Top() < b.Top() then b.Top() else a.Top();
      Covers(a, px, py) && Covers(b, px, py)
    // boxes that only touch along an edge do not collide
    ensures a.Right() == b.Left() || b.Right() == a.Left() || a.Bottom() == b.Top() || b.Bottom() == a.Top() ==>
      !Overlaps(a, b)
  {
    0 < a.w && 0 < a.h && 0 < b.w && 0 < b.h &&
    a.Left() < b.Right() && b.Left() < a.Right() && a.Top() < b.Bottom() && b.Top() < a.Bottom()
  }

  /** The overlap test is symmetric, and it holds exactly when the two boxes share a pixel. */
  lemma OverlapIsSharedPixel(a: Rect, b: Rect)
    ensures Overlaps(a, b) == Overlaps(b, a)
    ensures Overlaps(a, b) <==> exists px, py :: Covers(a, px, py) && Covers(b, px, py)
  {
    if Overlaps(a, b) {
      var px := if a.Left() < b.Left() then b.Left() else a.Left();
      var py := if a.Top() < b.Top() then b.Top() else a.Top();
      assert Covers(a, px, py) && Covers(b, px, py);
    }
  }
}
