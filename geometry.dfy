/** Axis-aligned rectangles, standing for pygame's `Rect`. Coordinates are exact
    reals: pygame's truncation of float coordinates to integers is not modelled. */
module Geometry {

  datatype Rect = Rect(x: real, y: real, w: real, h: real)

  /** `Rect.colliderect` for rectangles of positive size: the interiors overlap on both axes.
      Rectangles that only touch along an edge do not collide. */
  predicate Collide(a: Rect, b: Rect)
  {
    a.x < b.x + b.w && b.x < a.x + a.w &&
    a.y < b.y + b.h && b.y < a.y + a.h
  }

}
