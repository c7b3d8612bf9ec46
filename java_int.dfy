/** Java's `int` division and remainder (JLS 15.17.2 and 15.17.3), which round the
    quotient toward zero, unlike Dafny's Euclidean `/` and `%`. Only the rounding is
    modelled here: values are unbounded. */
module JavaInt {

  function Abs(x: int): int {
    if x < 0 then -x else x
  }

  /** `a / b`: the quotient of the magnitudes, negated when the signs differ. */
  function Div(a: int, b: int): (q: int)
    requires b != 0
    ensures Abs(q) * Abs(b) <= Abs(a) < (Abs(q) + 1) * Abs(b)
    ensures a >= 0 && b > 0 ==> q == a / b
  {
    if (a >= 0) == (b > 0) then Abs(a) / Abs(b) else -(Abs(a) / Abs(b))
  }

  /** `a % b`: takes the sign of the dividend and the magnitude `|a| mod |b|`. Together with
      Div it satisfies Java's defining identity `(a / b) * b + a % b == a`. */
  function Rem(a: int, b: int): (r: int)
    requires b != 0
    ensures Div(a, b) * b + r == a
    ensures a >= 0 ==> 0 <= r < Abs(b)
    ensures a < 0 ==> -Abs(b) < r <= 0
    ensures a >= 0 && b > 0 ==> r == a % b
  {
    DivRemIdentity(a, b);
    if a >= 0 then Abs(a) % Abs(b) else -(Abs(a) % Abs(b))
  }

  lemma DivRemIdentity(a: int, b: int)
    requires b != 0
    ensures Div(a, b) * b + (if a >= 0 then Abs(a) % Abs(b) else -(Abs(a) % Abs(b))) == a
  {
    var m, n := Abs(a), Abs(b);
    var q := m / n;
    assert m == q * n + m % n;
    if b > 0 {
      assert n == b;
      assert Div(a, b) == if a >= 0 then q else -q;
      MulNegLeft(q, b);
    } else {
      assert n == -b;
      assert Div(a, b) == if a >= 0 then -q else q;
      MulNegLeft(q, b);
      MulNegLeft(-q, b);
    }
  }

  lemma MulNegLeft(x: int, y: int)
    ensures (-x) * y == -(x * y)
  {
  }
}
