/** Three-component real vectors: the (x, y, z), (u, v, w) and (au, av, aw)
    triples that the particle arrays store as three separate properties. */
module Vectors {

  datatype Vec3 = Vec3(x: real, y: real, z: real)

  const Zero: Vec3 := Vec3(0.0, 0.0, 0.0)

  function Add(a: Vec3, b: Vec3): Vec3 {
    Vec3(a.x + b.x, a.y + b.y, a.z + b.z)
  }

  function Sub(a: Vec3, b: Vec3): Vec3 {
    Vec3(a.x - b.x, a.y - b.y, a.z - b.z)
  }

  function Neg(a: Vec3): Vec3 {
    Vec3(-a.x, -a.y, -a.z)
  }

  function Scale(c: real, a: Vec3): Vec3 {
    Vec3(c * a.x, c * a.y, c * a.z)
  }

  function Dot(a: Vec3, b: Vec3): real {
    a.x * b.x + a.y * b.y + a.z * b.z
  }

  // Scalar helpers: Python's abs, min and max on floats.

  function Abs(a: real): real {
    if a < 0.0 then -a else a
  }

  function Min(a: real, b: real): real {
    if b < a then b else a
  }

  function Max(a: real, b: real): real {
    if b > a then b else a
  }

  /* Sign and scaling facts the solver does not find on its own in larger
     contexts. */

  lemma ScaleScale(a: real, b: real, v: Vec3)
    ensures Scale(a, Scale(b, v)) == Scale(a * b, v)
  {
  }

  /** Two forces along opposite directions, of weighted magnitudes a fa and
      b fb, add up to a fa - b fb along the first direction. */
  lemma OpposedPair(a: real, fa: real, b: real, fb: real, v: Vec3)
    ensures Add(Scale(a, Scale(fa, v)), Scale(b, Scale(fb, Neg(v)))) == Scale(a * fa - b * fb, v)
  {
    ScaleScale(a, fa, v);
    ScaleScale(b, fb, Neg(v));
  }
}
