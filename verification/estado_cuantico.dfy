/**
 * The quantum state (EstadoCuantico): an identifier, a basis label and a
 * vector of complex amplitudes that construction normalises. After
 * construction the state is never changed, so it is a value here.
 */
module EstadoCuantico {
  import opened ComplexNumbers
  import opened Outcomes
  import opened Decimal

  datatype Estado = Estado(id: string, vector: seq<Complex>, base: string)

  /** The default `tolerance` of the normalisation, 1e-9. */
  const Tolerancia: real := 0.000000001

  /** Σ |a_i|², accumulated from the first amplitude on as Python's `sum` does. */
  function NormSq(v: seq<Complex>): (r: real)
    ensures r >= 0.0
  {
    if |v| == 0 then 0.0
    else
      Abs2NonNegative(v[|v| - 1]);
      NormSq(v[..|v| - 1]) + Abs2(v[|v| - 1])
  }

  /**
   * `abs(norm_squared - 1.0) <= tolerance`: the vector is kept exactly as
   * given. Such a vector is never empty and never all zeros.
   */
  predicate Normalizado(v: seq<Complex>)
    ensures Normalizado(v) ==> |v| > 0 && NormSq(v) > 0.0
  {
    -Tolerancia <= NormSq(v) - 1.0 <= Tolerancia
  }

  /**
   * `sqrt` stands for `cmath.sqrt`, which on the non-negative norm squared
   * returns a complex number with imaginary part 0; `sqrt(x)` is its real
   * part. It is exact for `x` when it is the non-negative root of `x`
   * (and so 0 for 0).
   */
  predicate RaizExacta(sqrt: real -> real, x: real) {
    if x == 0.0 then sqrt(x) == 0.0 else sqrt(x) > 0.0 && Sq(sqrt(x)) == x
  }

  /** `[amp / norm for amp in v]` with `norm == complex(r, 0.0)`. */
  function Escalar(v: seq<Complex>, r: real): (w: seq<Complex>)
    requires r != 0.0
    ensures |w| == |v|
    ensures forall i :: 0 <= i < |v| ==> Abs2(w[i]) * Sq(r) == Abs2(v[i])
  {
    var w := seq(|v|, i requires 0 <= i < |v| => DivReal(v[i], r));
    assert forall i :: 0 <= i < |v| ==> Abs2(w[i]) * Sq(r) == Abs2(v[i]) by {
      forall i | 0 <= i < |v|
        ensures Abs2(w[i]) * Sq(r) == Abs2(v[i])
      {
        Abs2DivReal(v[i], r);
      }
    }
    w
  }

  /**
   * The normalisation step of construction: a vector within tolerance is kept,
   * any other is divided by the root of its norm squared; dividing by a zero
   * root raises ZeroDivisionError.
   */
  function NormalizarVector(v: seq<Complex>, sqrt: real -> real): (r: Result<seq<Complex>>)
    ensures r.Ok? ==> |r.value| == |v|
    ensures r.Err? ==> r.error == ZeroDivisionError && !Normalizado(v)
  {
    if Normalizado(v) then Ok(v)
    else
      var norm := sqrt(NormSq(v));
      if norm == 0.0 then Err(ZeroDivisionError) else Ok(Escalar(v, norm))
  }

  /**
   * `EstadoCuantico(id, vector, base)`: an empty vector raises ValueError;
   * otherwise id and base are stored as given and the vector is normalised.
   */
  function CrearEstado(id: string, vector: seq<Complex>, base: string, sqrt: real -> real): (r: Result<Estado>)
    ensures |vector| == 0 <==> r == Err(ValueError)
    ensures r.Ok? ==> r.value.id == id && r.value.base == base && |r.value.vector| == |vector| > 0
    ensures |vector| > 0 && Normalizado(vector) ==> r == Ok(Estado(id, vector, base))
    ensures r.Err? && r.error != ValueError ==> r.error == ZeroDivisionError && !Normalizado(vector)
  {
    if |vector| == 0 then Err(ValueError)
    else
      match NormalizarVector(vector, sqrt)
      case Ok(w) => Ok(Estado(id, w, base))
      case Err(e) => Err(e)
  }

  /** The squared magnitudes of the amplitudes. */
  function Cuadrados(v: seq<Complex>): (c: seq<real>)
    ensures |c| == |v| && forall i :: 0 <= i < |v| ==> c[i] == Abs2(v[i])
  {
    seq(|v|, i requires 0 <= i < |v| => Abs2(v[i]))
  }

  /** The sum of a sequence of reals, from the end. */
  function Suma(xs: seq<real>): real {
    if |xs| == 0 then 0.0 else Suma(xs[..|xs| - 1]) + xs[|xs| - 1]
  }

  /** The norm squared is the sum of the squared magnitudes. */
  lemma {:induction false} NormSqEsSuma(v: seq<Complex>)
    ensures NormSq(v) == Suma(Cuadrados(v))
  {
    if |v| > 0 {
      NormSqEsSuma(v[..|v| - 1]);
      assert Cuadrados(v)[..|v| - 1] == Cuadrados(v[..|v| - 1]);
    }
  }

  /** Multiplying every term by `k` multiplies the sum by `k`. */
  lemma {:induction false} SumaPorFactor(xs: seq<real>, ys: seq<real>, k: real)
    requires |xs| == |ys|
    requires forall i :: 0 <= i < |xs| ==> xs[i] * k == ys[i]
    ensures Suma(xs) * k == Suma(ys)
  {
    if |xs| > 0 {
      var n := |xs|;
      SumaPorFactor(xs[..n - 1], ys[..n - 1], k);
      Distribuye(Suma(xs[..n - 1]), xs[n - 1], k, Suma(ys[..n - 1]), ys[n - 1]);
    }
  }

  /** Multiplying a sum of two terms by `k` multiplies each term. */
  lemma Distribuye(a: real, b: real, k: real, x: real, y: real)
    requires a * k == x && b * k == y
    ensures (a + b) * k == x + y
  {
  }

  /** Dividing every amplitude by `r` divides the norm squared by `r * r`. */
  lemma NormSqEscalar(v: seq<Complex>, r: real)
    requires r != 0.0
    ensures NormSq(Escalar(v, r)) * Sq(r) == NormSq(v)
  {
    var w := Escalar(v, r);
    forall i | 0 <= i < |v|
      ensures Cuadrados(w)[i] * Sq(r) == Cuadrados(v)[i]
    {
      Abs2DivReal(v[i], r);
    }
    SumaPorFactor(Cuadrados(w), Cuadrados(v), Sq(r));
    NormSqEsSuma(w);
    NormSqEsSuma(v);
  }

  /** A number whose product with `k`, equal to a non-zero `n`, is `n` is 1. */
  lemma CancelFactor(x: real, k: real, n: real)
    requires k == n && n != 0.0 && x * k == n
    ensures x == 1.0
  {
    assert (x - 1.0) * n == 0.0;
  }

  /**
   * A vector outside tolerance with a non-zero norm is divided, amplitude by
   * amplitude, by the one common factor sqrt(norm squared), and the result has
   * norm squared exactly 1.
   */
  lemma ReescaladoUnitario(v: seq<Complex>, sqrt: real -> real)
    requires !Normalizado(v) && NormSq(v) != 0.0 && RaizExacta(sqrt, NormSq(v))
    ensures NormalizarVector(v, sqrt).Ok?
    ensures forall i :: 0 <= i < |v| ==> NormalizarVector(v, sqrt).value[i] == DivReal(v[i], sqrt(NormSq(v)))
    ensures NormSq(NormalizarVector(v, sqrt).value) == 1.0
  {
    var ns := NormSq(v);
    var s := sqrt(ns);
    NormSqEscalar(v, s);
    var x := NormSq(Escalar(v, s));
    CancelFactor(x, Sq(s), ns);
  }

  /** The norm squared of the all-zero vector is 0. */
  lemma {:induction false} NormSqCero(v: seq<Complex>)
    requires forall i :: 0 <= i < |v| ==> v[i] == Zero
    ensures NormSq(v) == 0.0
  {
    if |v| > 0 {
      NormSqCero(v[..|v| - 1]);
    }
  }

  /**
   * With an exact root, construction from a non-empty vector fails exactly
   * when the norm squared is 0 (ZeroDivisionError), and otherwise yields a
   * vector that is normalised within tolerance.
   */
  lemma ConstruccionNormaliza(id: string, v: seq<Complex>, base: string, sqrt: real -> real)
    requires |v| > 0 && RaizExacta(sqrt, NormSq(v))
    ensures CrearEstado(id, v, base, sqrt).Err? <==> NormSq(v) == 0.0
    ensures CrearEstado(id, v, base, sqrt).Err? ==> CrearEstado(id, v, base, sqrt).error == ZeroDivisionError
    ensures CrearEstado(id, v, base, sqrt).Ok? ==> Normalizado(CrearEstado(id, v, base, sqrt).value.vector)
  {
    if NormSq(v) != 0.0 && !Normalizado(v) {
      ReescaladoUnitario(v, sqrt);
    }
  }

  /** An all-zero vector makes construction raise ZeroDivisionError. */
  lemma VectorNuloFalla(id: string, v: seq<Complex>, base: string, sqrt: real -> real)
    requires |v| > 0 && forall i :: 0 <= i < |v| ==> v[i] == Zero
    requires RaizExacta(sqrt, 0.0)
    ensures CrearEstado(id, v, base, sqrt) == Err(ZeroDivisionError)
  {
    NormSqCero(v);
    assert !Normalizado(v);
    assert sqrt(NormSq(v)) == 0.0;
  }

  /** Normalising an already normalised vector changes nothing. */
  lemma NormalizarIdempotente(v: seq<Complex>, sqrt: real -> real)
    requires RaizExacta(sqrt, NormSq(v)) && NormalizarVector(v, sqrt).Ok?
    ensures NormalizarVector(NormalizarVector(v, sqrt).value, sqrt) == NormalizarVector(v, sqrt)
  {
    if NormSq(v) != 0.0 && !Normalizado(v) {
      ReescaladoUnitario(v, sqrt);
    }
  }

  /** The sum of the probabilities stored under "0" .. str(n - 1). */
  function Total(probs: map<string, real>, n: nat): real {
    if n == 0 then 0.0
    else Total(probs, n - 1) + (if NatToString(n - 1) in probs then probs[NatToString(n - 1)] else 0.0)
  }

  /** When the first `n` keys hold the squared magnitudes of `v`, their total is the norm squared of `v[..n]`. */
  lemma {:induction false} TotalEsNormSq(probs: map<string, real>, v: seq<Complex>, n: nat)
    requires n <= |v|
    requires forall i :: 0 <= i < n ==> NatToString(i) in probs && probs[NatToString(i)] == Abs2(v[i])
    ensures Total(probs, n) == NormSq(v[..n])
  {
    if n > 0 {
      TotalEsNormSq(probs, v, n - 1);
      assert v[..n][..n - 1] == v[..n - 1];
    }
  }

  /** The keys "0" .. str(n - 1). */
  function Claves(n: nat): set<string> {
    if n == 0 then {} else Claves(n - 1) + {NatToString(n - 1)}
  }

  /** The keys below `n` are exactly the numerals of the indices below `n`, and there are `n` of them. */
  lemma {:induction false} ClavesIndices(n: nat)
    ensures forall i :: 0 <= i < n ==> NatToString(i) in Claves(n)
    ensures forall i: nat :: NatToString(i) in Claves(n) ==> i < n
    ensures |Claves(n)| == n
  {
    if n > 0 {
      ClavesIndices(n - 1);
      assert NatToString(n - 1) !in Claves(n - 1);
      forall i: nat | NatToString(i) in Claves(n)
        ensures i < n
      {
        if NatToString(i) == NatToString(n - 1) {
          NatToStringInjective(i, n - 1);
        } else {
          assert NatToString(i) in Claves(n - 1);
        }
      }
    }
  }

  /** The first `n` outcomes are recorded, and nothing else: keys "0" .. str(n - 1), each holding its squared magnitude. */
  predicate MedidasHasta(probs: map<string, real>, v: seq<Complex>, n: nat)
    requires n <= |v|
  {
    probs.Keys == Claves(n)
    && (forall j :: 0 <= j < n ==> NatToString(j) in probs && probs[NatToString(j)] == Abs2(v[j]))
    && (forall k :: k in probs ==> probs[k] >= 0.0)
  }

  /** Recording outcome `n` extends the record of the first `n` outcomes by one. */
  lemma MedirPaso(probs: map<string, real>, v: seq<Complex>, n: nat)
    requires n < |v| && MedidasHasta(probs, v, n)
    ensures MedidasHasta(probs[NatToString(n) := Abs2(v[n])], v, n + 1)
  {
    var p := probs[NatToString(n) := Abs2(v[n])];
    Abs2NonNegative(v[n]);
    forall j | 0 <= j < n
      ensures NatToString(j) in p && p[NatToString(j)] == Abs2(v[j])
    {
      NatToStringInjective(j, n);
    }
  }

  /**
   * `medir`: one entry per amplitude, keyed "0" .. str(N - 1), holding its
   * squared magnitude; the entries are non-negative and add up to the norm
   * squared of the vector. The state is a value and is left as it was.
   */
  method Medir(e: Estado) returns (probs: map<string, real>)
    ensures probs.Keys == Claves(|e.vector|) && |probs| == |e.vector|
    ensures forall i :: 0 <= i < |e.vector| ==> NatToString(i) in probs && probs[NatToString(i)] == Abs2(e.vector[i])
    ensures forall k :: k in probs ==> probs[k] >= 0.0
    ensures Total(probs, |e.vector|) == NormSq(e.vector)
  {
    probs := map[];
    var i := 0;
    while i < |e.vector|
      invariant 0 <= i <= |e.vector|
      invariant MedidasHasta(probs, e.vector, i)
    {
      MedirPaso(probs, e.vector, i);
      probs := probs[NatToString(i) := Abs2(e.vector[i])];
      i := i + 1;
    }
    ClavesIndices(|e.vector|);
    TotalEsNormSq(probs, e.vector, |e.vector|);
    assert e.vector[..|e.vector|] == e.vector;
  }
}
