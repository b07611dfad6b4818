/** Pairs and triples of reals, and the pointer normalisation two controllers share. */
module Geometry {
  /** A pointer offset, a parallax translation, or a pair of tilt angles. */
  datatype Vec2 = Vec2(x: real, y: real)

  /** A camera position. */
  datatype Vec3 = Vec3(x: real, y: real, z: real)

  /**
    `(client / extent - 0.5) * 2`: a pointer coordinate mapped so that the
    window's edges go to -1 and 1 and its middle to 0.
   */
  function PointerUnit(client: real, extent: real): (u: real)
    requires extent > 0.0
    ensures 0.0 <= client <= extent ==> -1.0 <= u <= 1.0
    ensures u == 0.0 <==> client == extent / 2.0
    ensures u < 0.0 <==> client < extent / 2.0
  {
    QuotientFacts(client, extent);
    (client / extent - 0.5) * 2.0
  }

  lemma QuotientFacts(a: real, b: real)
    requires b > 0.0
    ensures 0.0 <= a <= b ==> 0.0 <= a / b <= 1.0
    ensures a / b == 0.5 <==> a == b / 2.0
    ensures a / b < 0.5 <==> a < b / 2.0
  {
    var q := a / b;
    assert q * b == a;
    assert a - b / 2.0 == (q - 0.5) * b;
    SignOfProduct(q - 0.5, b);
    if 0.0 <= a <= b {
      SignOfProduct(q, b);
      SignOfProduct(q - 1.0, b);
      assert a - b == (q - 1.0) * b;
    }
  }

  /** A product with a positive factor has the other factor's sign. */
  lemma SignOfProduct(x: real, b: real)
    requires b > 0.0
    ensures x < 0.0 <==> x * b < 0.0
    ensures x == 0.0 <==> x * b == 0.0
    ensures x > 0.0 <==> x * b > 0.0
  {
    if x < 0.0 {
      assert x * b < 0.0;
    } else if x > 0.0 {
      assert x * b > 0.0;
    }
  }
}
