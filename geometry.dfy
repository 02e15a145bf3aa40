/** Axis-aligned rectangles and the bounding-box collision test of game.js. */
module Geometry {

  /** Anything drawn on the board: the bird and every pipe carry a position and a size. */
  datatype Box = Box(x: real, y: real, width: real, height: real)

  /** A box with a positive extent on both axes (every sprite of the game is one). */
  predicate Proper(b: Box) {
    b.width > 0.0 && b.height > 0.0
  }

  /** The collision test of game.js: overlap on both axes, with strict comparisons. */
  predicate Collision(a: Box, b: Box) {
    a.x < b.x + b.width &&
    a.x + a.width > b.x &&
    a.y < b.y + b.height &&
    a.y + a.height > b.y
  }

  /** The point (px, py) lies in the open interior of b. */
  predicate StrictlyInside(b: Box, px: real, py: real) {
    b.x < px < b.x + b.width && b.y < py < b.y + b.height
  }

  function Max(a: real, b: real): real { if a < b then b else a }

  function Min(a: real, b: real): real { if a < b then a else b }

  /** For proper boxes the test holds exactly when the two open interiors share a point. */
  lemma CollisionIffCommonInteriorPoint(a: Box, b: Box)
    requires Proper(a) && Proper(b)
    ensures Collision(a, b) <==>
            exists px, py :: StrictlyInside(a, px, py) && StrictlyInside(b, px, py)
  {
    if Collision(a, b) {
      var px := (Max(a.x, b.x) + Min(a.x + a.width, b.x + b.width)) / 2.0;
      var py := (Max(a.y, b.y) + Min(a.y + a.height, b.y + b.height)) / 2.0;
      assert StrictlyInside(a, px, py) && StrictlyInside(b, px, py);
    }
  }

  /** The test does not depend on the order of its arguments. */
  lemma CollisionSymmetric(a: Box, b: Box)
    ensures Collision(a, b) <==> Collision(b, a)
  {
  }

  /** Boxes that only touch along an edge do not collide. */
  lemma TouchingBoxesDoNotCollide(a: Box, b: Box)
    requires a.x + a.width == b.x || b.x + b.width == a.x ||
             a.y + a.height == b.y || b.y + b.height == a.y
    ensures !Collision(a, b)
  {
  }
}
