/** Two-dimensional vectors (libGDX's Vector2), with exact real components. */
module Geometry {
  datatype Vec = Vec(x: real, y: real)

  function Add(a: Vec, b: Vec): Vec
  {
    Vec(a.x + b.x, a.y + b.y)
  }

  function Sub(a: Vec, b: Vec): Vec
  {
    Vec(a.x - b.x, a.y - b.y)
  }

  const Origin := Vec(0.0, 0.0)
}
