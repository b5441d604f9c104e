/** Python `complex` values with exact real and imaginary parts. */
module ComplexNumbers {

  datatype Complex = C(re: real, im: real)

  const Zero: Complex := C(0.0, 0.0)
  const One: Complex := C(1.0, 0.0)

  /** A real number as a complex one, as `complex(x)` does. */
  function Real(x: real): Complex { C(x, 0.0) }

  function Add(a: Complex, b: Complex): Complex {
    C(a.re + b.re, a.im + b.im)
  }

  function Mul(a: Complex, b: Complex): Complex {
    C(a.re * b.re - a.im * b.im, a.re * b.im + a.im * b.re)
  }

  /**
   * `a / complex(r, 0.0)`. Python divides by a complex number whose imaginary
   * part is 0 by dividing both parts by its real part, and raises
   * ZeroDivisionError when that part is 0; callers check `r != 0.0`.
   */
  function DivReal(a: Complex, r: real): Complex
    requires r != 0.0
  {
    C(a.re / r, a.im / r)
  }

  function Sq(x: real): real { x * x }

  /** `abs(a) ** 2`: the squared magnitude, the probability weight of an amplitude. */
  function Abs2(a: Complex): real {
    Sq(a.re) + Sq(a.im)
  }

  lemma Abs2NonNegative(a: Complex)
    ensures Abs2(a) >= 0.0
  {
  }

  /** Dividing by a real `r` divides the squared magnitude by `r * r`. */
  lemma Abs2DivReal(a: Complex, r: real)
    requires r != 0.0
    ensures Abs2(DivReal(a, r)) * Sq(r) == Abs2(a)
  {
    var x, y := a.re / r, a.im / r;
    assert x * r == a.re;
    assert y * r == a.im;
    assert (x * x + y * y) * (r * r) == (x * r) * (x * r) + (y * r) * (y * r);
  }
}
