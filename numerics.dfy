// Transcendental functions used by the predictor and the simulators.
// They are carried as a record of function values; `Lawful` states the laws
// the model relies on (the mathematical facts about tanh, atanh, exp and sqrt),
// and every lemma that needs one of them requires `Lawful(m)`.
module Numerics {

  datatype RealOps = RealOps(
    tanh: real -> real,
    atanh: real -> real,
    exp: real -> real,
    sqrt: real -> real)

  ghost predicate TanhLaws(m: RealOps) {
    // odd
    (forall x, y {:trigger m.tanh(x), m.tanh(y)} :: x + y == 0.0 ==> m.tanh(x) + m.tanh(y) == 0.0) &&
    // strictly increasing
    (forall x, y {:trigger m.tanh(x), m.tanh(y)} :: x < y ==> m.tanh(x) < m.tanh(y)) &&
    // range (-1, 1)
    (forall x :: -1.0 < m.tanh(x) < 1.0)
  }

  ghost predicate AtanhLaws(m: RealOps) {
    forall y :: -1.0 < y < 1.0 ==> m.tanh(m.atanh(y)) == y
  }

  ghost predicate ExpLaws(m: RealOps) {
    (forall x :: m.exp(x) > 0.0) &&
    (forall x, y {:trigger m.exp(x), m.exp(y)} :: x < y ==> m.exp(x) < m.exp(y)) &&
    m.exp(0.0) == 1.0
  }

  ghost predicate SqrtLaws(m: RealOps) {
    forall x :: x >= 0.0 ==> m.sqrt(x) >= 0.0 && m.sqrt(x) * m.sqrt(x) == x
  }

  ghost predicate Lawful(m: RealOps) {
    TanhLaws(m) && AtanhLaws(m) && ExpLaws(m) && SqrtLaws(m)
  }

  lemma TanhZero(m: RealOps)
    requires TanhLaws(m)
    ensures m.tanh(0.0) == 0.0
  {
    assert 0.0 + 0.0 == 0.0;
  }

  /** tanh keeps the sign of its argument. */
  lemma TanhSign(m: RealOps, x: real)
    requires TanhLaws(m)
    ensures x > 0.0 <==> m.tanh(x) > 0.0
    ensures x < 0.0 <==> m.tanh(x) < 0.0
  {
    TanhZero(m);
    if x > 0.0 {
      assert m.tanh(0.0) < m.tanh(x);
    } else if x < 0.0 {
      assert m.tanh(x) < m.tanh(0.0);
    }
  }

  lemma SqrtPositive(m: RealOps, x: real)
    requires SqrtLaws(m) && x > 0.0
    ensures m.sqrt(x) > 0.0
  {
    assert m.sqrt(x) >= 0.0 && m.sqrt(x) * m.sqrt(x) == x;
  }

  lemma SqrtZeroIff(m: RealOps, x: real)
    requires SqrtLaws(m) && x >= 0.0
    ensures m.sqrt(x) == 0.0 <==> x == 0.0
  {
    var r := m.sqrt(x);
    assert r >= 0.0 && r * r == x;
    if r > 0.0 {
      calc { x; == r * r; > 0.0; }
    } else {
      assert r == 0.0 && x == 0.0;
    }
  }
}
