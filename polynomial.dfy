/**
 * Polynomial identities over the reals, each proved by expanding a product
 * of two small polynomials into a sum of monomials. Every lemma states one
 * expansion, so that each proof obligation stays a single, small nonlinear
 * fact; the quaternion lemmas combine them by linear reasoning.
 */
module Polynomials {
  import opened LinAlg

  lemma RotationProduct00X(w: real, x: real, y: real, z: real)
    ensures (w * w + x * x - y * y - z * z) * (w * w + x * x - y * y - z * z)
         == 1.0 * (w * w * w * w) + 2.0 * (w * w * x * x) - 2.0 * (w * w * y * y) - 2.0 * (w * w * z * z) + 1.0 * (x * x * x * x) - 2.0 * (x * x * y * y) - 2.0 * (x * x * z * z) + 1.0 * (y * y * y * y) + 2.0 * (y * y * z * z) + 1.0 * (z * z * z * z)
  {
  }

  lemma RotationProduct00Y(w: real, x: real, y: real, z: real)
    ensures (2.0 * (x * y - w * z)) * (2.0 * (x * y - w * z))
         == 4.0 * (w * w * z * z) - 8.0 * (w * x * y * z) + 4.0 * (x * x * y * y)
  {
  }

  lemma RotationProduct00Z(w: real, x: real, y: real, z: real)
    ensures (2.0 * (x * z + w * y)) * (2.0 * (x * z + w * y))
         == 4.0 * (w * w * y * y) + 8.0 * (w * x * y * z) + 4.0 * (x * x * z * z)
  {
  }

  lemma RotationProduct01X(w: real, x: real, y: real, z: real)
    ensures (w * w + x * x - y * y - z * z) * (2.0 * (x * y + w * z))
         == 2.0 * (w * w * w * z) + 2.0 * (w * w * x * y) + 2.0 * (w * x * x * z) - 2.0 * (w * y * y * z) - 2.0 * (w * z * z * z) + 2.0 * (x * x * x * y) - 2.0 * (x * y * y * y) - 2.0 * (x * y * z * z)
  {
  }

  lemma RotationProduct01Y(w: real, x: real, y: real, z: real)
    ensures (2.0 * (x * y - w * z)) * (w * w - x * x + y * y - z * z)
         == - 2.0 * (w * w * w * z) + 2.0 * (w * w * x * y) + 2.0 * (w * x * x * z) - 2.0 * (w * y * y * z) + 2.0 * (w * z * z * z) - 2.0 * (x * x * x * y) + 2.0 * (x * y * y * y) - 2.0 * (x * y * z * z)
  {
  }

  lemma RotationProduct01Z(w: real, x: real, y: real, z: real)
    ensures (2.0 * (x * z + w * y)) * (2.0 * (y * z - w * x))
         == - 4.0 * (w * w * x * y) - 4.0 * (w * x * x * z) + 4.0 * (w * y * y * z) + 4.0 * (x * y * z * z)
  {
  }

  lemma RotationProduct02X(w: real, x: real, y: real, z: real)
    ensures (w * w + x * x - y * y - z * z) * (2.0 * (x * z - w * y))
         == - 2.0 * (w * w * w * y) + 2.0 * (w * w * x * z) - 2.0 * (w * x * x * y) + 2.0 * (w * y * y * y) + 2.0 * (w * y * z * z) + 2.0 * (x * x * x * z) - 2.0 * (x * y * y * z) - 2.0 * (x * z * z * z)
  {
  }

  lemma RotationProduct02Y(w: real, x: real, y: real, z: real)
    ensures (2.0 * (x * y - w * z)) * (2.0 * (y * z + w * x))
         == - 4.0 * (w * w * x * z) + 4.0 * (w * x * x * y) - 4.0 * (w * y * z * z) + 4.0 * (x * y * y * z)
  {
  }

  lemma RotationProduct02Z(w: real, x: real, y: real, z: real)
    ensures (2.0 * (x * z + w * y)) * (w * w - x * x - y * y + z * z)
         == 2.0 * (w * w * w * y) + 2.0 * (w * w * x * z) - 2.0 * (w * x * x * y) - 2.0 * (w * y * y * y) + 2.0 * (w * y * z * z) - 2.0 * (x * x * x * z) - 2.0 * (x * y * y * z) + 2.0 * (x * z * z * z)
  {
  }

  lemma RotationProduct11X(w: real, x: real, y: real, z: real)
    ensures (2.0 * (x * y + w * z)) * (2.0 * (x * y + w * z))
         == 4.0 * (w * w * z * z) + 8.0 * (w * x * y * z) + 4.0 * (x * x * y * y)
  {
  }

  lemma RotationProduct11Y(w: real, x: real, y: real, z: real)
    ensures (w * w - x * x + y * y - z * z) * (w * w - x * x + y * y - z * z)
         == 1.0 * (w * w * w * w) - 2.0 * (w * w * x * x) + 2.0 * (w * w * y * y) - 2.0 * (w * w * z * z) + 1.0 * (x * x * x * x) - 2.0 * (x * x * y * y) + 2.0 * (x * x * z * z) + 1.0 * (y * y * y * y) - 2.0 * (y * y * z * z) + 1.0 * (z * z * z * z)
  {
  }

  lemma RotationProduct11Z(w: real, x: real, y: real, z: real)
    ensures (2.0 * (y * z - w * x)) * (2.0 * (y * z - w * x))
         == 4.0 * (w * w * x * x) - 8.0 * (w * x * y * z) + 4.0 * (y * y * z * z)
  {
  }

  lemma RotationProduct12X(w: real, x: real, y: real, z: real)
    ensures (2.0 * (x * y + w * z)) * (2.0 * (x * z - w * y))
         == - 4.0 * (w * w * y * z) - 4.0 * (w * x * y * y) + 4.0 * (w * x * z * z) + 4.0 * (x * x * y * z)
  {
  }

  lemma RotationProduct12Y(w: real, x: real, y: real, z: real)
    ensures (w * w - x * x + y * y - z * z) * (2.0 * (y * z + w * x))
         == 2.0 * (w * w * w * x) + 2.0 * (w * w * y * z) - 2.0 * (w * x * x * x) + 2.0 * (w * x * y * y) - 2.0 * (w * x * z * z) - 2.0 * (x * x * y * z) + 2.0 * (y * y * y * z) - 2.0 * (y * z * z * z)
  {
  }

  lemma RotationProduct12Z(w: real, x: real, y: real, z: real)
    ensures (2.0 * (y * z - w * x)) * (w * w - x * x - y * y + z * z)
         == - 2.0 * (w * w * w * x) + 2.0 * (w * w * y * z) + 2.0 * (w * x * x * x) + 2.0 * (w * x * y * y) - 2.0 * (w * x * z * z) - 2.0 * (x * x * y * z) - 2.0 * (y * y * y * z) + 2.0 * (y * z * z * z)
  {
  }

  lemma RotationProduct22X(w: real, x: real, y: real, z: real)
    ensures (2.0 * (x * z - w * y)) * (2.0 * (x * z - w * y))
         == 4.0 * (w * w * y * y) - 8.0 * (w * x * y * z) + 4.0 * (x * x * z * z)
  {
  }

  lemma RotationProduct22Y(w: real, x: real, y: real, z: real)
    ensures (2.0 * (y * z + w * x)) * (2.0 * (y * z + w * x))
         == 4.0 * (w * w * x * x) + 8.0 * (w * x * y * z) + 4.0 * (y * y * z * z)
  {
  }

  lemma RotationProduct22Z(w: real, x: real, y: real, z: real)
    ensures (w * w - x * x - y * y + z * z) * (w * w - x * x - y * y + z * z)
         == 1.0 * (w * w * w * w) - 2.0 * (w * w * x * x) - 2.0 * (w * w * y * y) + 2.0 * (w * w * z * z) + 1.0 * (x * x * x * x) + 2.0 * (x * x * y * y) - 2.0 * (x * x * z * z) + 1.0 * (y * y * y * y) - 2.0 * (y * y * z * z) + 1.0 * (z * z * z * z)
  {
  }

  lemma NormSquared(w: real, x: real, y: real, z: real)
    ensures Square(w * w + x * x + y * y + z * z)
         == 1.0 * (w * w * w * w) + 2.0 * (w * w * x * x) + 2.0 * (w * w * y * y) + 2.0 * (w * w * z * z) + 1.0 * (x * x * x * x) + 2.0 * (x * x * y * y) + 2.0 * (x * x * z * z) + 1.0 * (y * y * y * y) + 2.0 * (y * y * z * z) + 1.0 * (z * z * z * z)
  {
  }
}
