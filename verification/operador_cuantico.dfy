/**
 * The quantum operator (OperadorCuantico): a named complex matrix that maps a
 * state to a new state by the matrix-vector product. It is never changed
 * after construction, so it is a value here.
 */
module OperadorCuantico {
  import opened ComplexNumbers
  import opened Outcomes
  import opened EstadoCuantico

  datatype Operador = Operador(nombre: string, matriz: seq<seq<Complex>>) {
    /** `dim`: the row count recorded at construction. */
    function Dim(): (d: nat)
      ensures d == |matriz|
    {
      |matriz|
    }
  }

  /** No row of the matrix is empty. */
  predicate SinFilasVacias(m: seq<seq<Complex>>) {
    forall i :: 0 <= i < |m| ==> |m[i]| > 0
  }

  /**
   * `OperadorCuantico(nombre, matriz)`: an empty matrix or an empty row raises
   * ValueError, and so does a row count different from the length of row 0;
   * the other rows' lengths are not looked at.
   */
  function CrearOperador(nombre: string, matriz: seq<seq<Complex>>): (r: Result<Operador>)
    ensures r.Ok? <==> |matriz| > 0 && SinFilasVacias(matriz) && |matriz| == |matriz[0]|
    ensures r.Err? ==> r.error == ValueError
    ensures r.Ok? ==> r.value.nombre == nombre && r.value.matriz == matriz && r.value.Dim() == |matriz|
    ensures (|matriz| > 0 && forall i :: 0 <= i < |matriz| ==> |matriz[i]| == |matriz|) ==> r.Ok? && FilasCompletas(r.value)
  {
    if |matriz| == 0 || !SinFilasVacias(matriz) then Err(ValueError)
    else if |matriz| != |matriz[0]| then Err(ValueError)
    else Ok(Operador(nombre, matriz))
  }

  /** `sum(fila[j] * v[j] for j in range(n))`: from 0, left to right. */
  function SumaFila(fila: seq<Complex>, v: seq<Complex>, n: nat): Complex
    requires n <= |fila| && n <= |v|
  {
    if n == 0 then Zero else Add(SumaFila(fila, v, n - 1), Mul(fila[n - 1], v[n - 1]))
  }

  /** Every row reaches column `dim - 1`; a shorter row makes the product raise IndexError. */
  predicate FilasCompletas(op: Operador) {
    forall i :: 0 <= i < |op.matriz| ==> |op.matriz[i]| >= op.Dim()
  }

  /** The matrix-vector product: entry `i` is Σ_j m[i][j] * v[j]. */
  function Producto(m: seq<seq<Complex>>, v: seq<Complex>): (p: seq<Complex>)
    requires forall i :: 0 <= i < |m| ==> |m[i]| >= |v|
    ensures |p| == |m|
  {
    seq(|m|, i requires 0 <= i < |m| => SumaFila(m[i], v, |v|))
  }

  /** A row times the zero vector sums to zero. */
  lemma {:induction false} SumaFilaCero(fila: seq<Complex>, v: seq<Complex>, n: nat)
    requires n <= |fila| && n <= |v|
    requires forall j :: 0 <= j < n ==> v[j] == Zero
    ensures SumaFila(fila, v, n) == Zero
  {
    if n > 0 {
      SumaFilaCero(fila, v, n - 1);
      assert Mul(fila[n - 1], v[n - 1]) == Zero;
    }
  }

  /** The product is linear: the zero vector is mapped to the zero vector. */
  lemma ProductoCero(m: seq<seq<Complex>>, v: seq<Complex>)
    requires forall i :: 0 <= i < |m| ==> |m[i]| >= |v|
    requires forall j :: 0 <= j < |v| ==> v[j] == Zero
    ensures forall i :: 0 <= i < |m| ==> Producto(m, v)[i] == Zero
  {
    forall i | 0 <= i < |m|
      ensures Producto(m, v)[i] == Zero
    {
      SumaFilaCero(m[i], v, |v|);
    }
  }

  /**
   * What `aplicar` returns: ValueError on a dimension mismatch, IndexError on a
   * row shorter than the dimension, and otherwise a state built by the
   * normalising constructor from the product, with id `<id>_<nombre>` and the
   * input's basis.
   */
  function Transformado(op: Operador, e: Estado, sqrt: real -> real): (r: Result<Estado>)
    ensures op.Dim() != |e.vector| ==> r == Err(ValueError)
    ensures r.Ok? ==> r.value.id == e.id + "_" + op.nombre && r.value.base == e.base
    ensures r.Ok? ==> |r.value.vector| == op.Dim() == |e.vector|
    ensures r.Err? && r.error == ValueError ==> op.Dim() != |e.vector| || |e.vector| == 0
    ensures op.Dim() == |e.vector| && !FilasCompletas(op) ==> r == Err(IndexError)
    ensures r.Err? && r.error == IndexError ==> !FilasCompletas(op)
  {
    if op.Dim() != |e.vector| then Err(ValueError)
    else if !FilasCompletas(op) then Err(IndexError)
    else CrearEstado(e.id + "_" + op.nombre, Producto(op.matriz, e.vector), e.base, sqrt)
  }

  /**
   * `aplicar`: checks the dimension, builds the new amplitudes row by row and
   * returns a fresh state; the operator and the input state are values and
   * stay as they were.
   */
  method Aplicar(op: Operador, e: Estado, sqrt: real -> real) returns (r: Result<Estado>)
    ensures r == Transformado(op, e, sqrt)
  {
    if op.Dim() != |e.vector| {
      return Err(ValueError);
    }
    var nuevo: seq<Complex> := [];
    var i := 0;
    while i < op.Dim()
      invariant 0 <= i <= op.Dim()
      invariant forall k :: 0 <= k < i ==> |op.matriz[k]| >= op.Dim()
      invariant |nuevo| == i
      invariant forall k :: 0 <= k < i ==> nuevo[k] == SumaFila(op.matriz[k], e.vector, op.Dim())
    {
      if |op.matriz[i]| < op.Dim() {
        return Err(IndexError);
      }
      nuevo := nuevo + [SumaFila(op.matriz[i], e.vector, op.Dim())];
      i := i + 1;
    }
    assert nuevo == Producto(op.matriz, e.vector);
    r := CrearEstado(e.id + "_" + op.nombre, nuevo, e.base, sqrt);
  }

  /** The product of a two-row matrix with a two-entry vector, written out. */
  lemma Producto2(m: seq<seq<Complex>>, a: Complex, b: Complex)
    requires |m| == 2 && |m[0]| >= 2 && |m[1]| >= 2
    ensures Producto(m, [a, b])
         == [Add(Add(Zero, Mul(m[0][0], a)), Mul(m[0][1], b)), Add(Add(Zero, Mul(m[1][0], a)), Mul(m[1][1], b))]
  {
    var v := [a, b];
    forall i | 0 <= i < 2
      ensures SumaFila(m[i], v, 2) == Add(Add(Zero, Mul(m[i][0], a)), Mul(m[i][1], b))
    {
      assert SumaFila(m[i], v, 0) == Zero;
      assert SumaFila(m[i], v, 1) == Add(Zero, Mul(m[i][0], a));
    }
  }

  /** The norm squared of a two-entry vector. */
  lemma NormSq2(a: Complex, b: Complex)
    ensures NormSq([a, b]) == Abs2(a) + Abs2(b)
  {
    var w := [a, b];
    assert w[..1] == [a];
    assert [a][..0] == [];
    assert NormSq([a]) == NormSq([]) + Abs2(a);
    assert NormSq(w) == NormSq([a]) + Abs2(b);
  }

  /** A 2x3 matrix is refused: its row count differs from the length of row 0. */
  lemma NoCuadradaRechazada()
    ensures CrearOperador("Invalid", [[Real(1.0), Real(2.0), Real(3.0)], [Real(4.0), Real(5.0), Real(6.0)]])
         == Err(ValueError)
  {
  }

  /**
   * Only row 0 is measured: a matrix whose second row is too short is
   * accepted, and applying it to a two-entry state raises IndexError.
   */
  lemma FilaCortaAceptada(e: Estado, sqrt: real -> real)
    requires |e.vector| == 2
    ensures CrearOperador("R", [[One, Zero], [One]]).Ok?
    ensures Transformado(CrearOperador("R", [[One, Zero], [One]]).value, e, sqrt) == Err(IndexError)
  {
    var m := [[One, Zero], [One]];
    assert SinFilasVacias(m);
    var op := CrearOperador("R", m).value;
    assert |op.matriz[1]| < op.Dim();
  }

  /**
   * An operator built from a square matrix, the shape its error message asks
   * for, is accepted, and applying it never raises IndexError.
   */
  lemma CuadradaSinIndexError(nombre: string, matriz: seq<seq<Complex>>, e: Estado, sqrt: real -> real)
    requires |matriz| > 0 && forall i :: 0 <= i < |matriz| ==> |matriz[i]| == |matriz|
    ensures CrearOperador(nombre, matriz).Ok?
    ensures Transformado(CrearOperador(nombre, matriz).value, e, sqrt) != Err(IndexError)
  {
    var op := CrearOperador(nombre, matriz).value;
    assert FilasCompletas(op);
  }

  /** A product that is already normalised is returned as it is, under the derived id and the input's basis. */
  lemma TransformadoSinReescalar(op: Operador, e: Estado, sqrt: real -> real)
    requires op.Dim() == |e.vector| > 0 && FilasCompletas(op)
    requires Normalizado(Producto(op.matriz, e.vector))
    ensures Transformado(op, e, sqrt) == Ok(Estado(e.id + "_" + op.nombre, Producto(op.matriz, e.vector), e.base))
  {
  }

  /** Deriving an id from `<id>_H` with H again gives `<id>_H_H`. */
  lemma SufijoDoble(id: string)
    ensures id + "_H" + "_H" == id + "_H_H"
  {
    assert "_H" + "_H" == "_H_H";
  }

  /** The X (NOT) gate. */
  const X: Operador := Operador("X", [[Zero, One], [One, Zero]])

  /** X swaps the two amplitudes of any two-entry vector. */
  lemma ProductoX(a: Complex, b: Complex)
    ensures Producto(X.matriz, [a, b]) == [b, a]
  {
    Producto2(X.matriz, a, b);
  }

  /**
   * X applied to a normalised two-entry state swaps its amplitudes, with no
   * rescaling and with derived id `<id>_X`: |0> becomes |1> and |1> becomes |0>.
   */
  lemma AplicarX(e: Estado, sqrt: real -> real)
    requires |e.vector| == 2 && Normalizado(e.vector)
    ensures Transformado(X, e, sqrt) == Ok(Estado(e.id + "_X", [e.vector[1], e.vector[0]], e.base))
  {
    var a, b := e.vector[0], e.vector[1];
    assert e.vector == [a, b];
    ProductoX(a, b);
    NormSq2(a, b);
    NormSq2(b, a);
    TransformadoSinReescalar(X, e, sqrt);
    assert e.id + "_" + X.nombre == e.id + "_X";
  }

  /** The Hadamard gate, with `s` standing for 1/sqrt(2). */
  function Hadamard(s: real): Operador {
    Operador("H", [[Real(s), Real(s)], [Real(s), Real(-s)]])
  }

  /** The two rows of H applied to `[a, b]`: `s*a + s*b` and `s*a - s*b`. */
  lemma ProductoH(s: real, a: Complex, b: Complex)
    ensures Producto(Hadamard(s).matriz, [a, b])
         == [C(s * a.re + s * b.re, s * a.im + s * b.im), C(s * a.re - s * b.re, s * a.im - s * b.im)]
  {
    Producto2(Hadamard(s).matriz, a, b);
    assert Mul(Real(s), a) == C(s * a.re, s * a.im);
    assert Mul(Real(s), b) == C(s * b.re, s * b.im);
    assert Mul(Real(-s), b) == C(-(s * b.re), -(s * b.im));
  }

  /** s*(s*x + s*y) + s*(s*x - s*y) == x and s*(s*x + s*y) - s*(s*x - s*y) == y when s*s == 1/2. */
  lemma MitadesSeSuman(s: real, x: real, y: real)
    requires Sq(s) == 0.5
    ensures s * (s * x + s * y) + s * (s * x - s * y) == x
    ensures s * (s * x + s * y) - s * (s * x - s * y) == y
  {
    var k := Sq(s);
    assert s * (s * x + s * y) == k * x + k * y;
    assert s * (s * x - s * y) == k * x - k * y;
  }

  /** H·H is the identity: applying H twice gives back any two-entry vector. */
  lemma HadamardInvolutivo(s: real, a: Complex, b: Complex)
    requires Sq(s) == 0.5
    ensures Producto(Hadamard(s).matriz, Producto(Hadamard(s).matriz, [a, b])) == [a, b]
  {
    ProductoH(s, a, b);
    var p := C(s * a.re + s * b.re, s * a.im + s * b.im);
    var q := C(s * a.re - s * b.re, s * a.im - s * b.im);
    ProductoH(s, p, q);
    MitadesSeSuman(s, a.re, b.re);
    MitadesSeSuman(s, a.im, b.im);
    assert C(s * p.re + s * q.re, s * p.im + s * q.im) == a;
    assert C(s * p.re - s * q.re, s * p.im - s * q.im) == b;
  }

  /** (s*x + s*y)^2 + (s*x - s*y)^2 == x^2 + y^2 when s*s == 1/2. */
  lemma SumaDiferencia(s: real, x: real, y: real)
    requires Sq(s) == 0.5
    ensures Sq(s * x + s * y) + Sq(s * x - s * y) == Sq(x) + Sq(y)
  {
    assert Sq(s * x + s * y) + Sq(s * x - s * y) == 2.0 * (s * s) * (x * x) + 2.0 * (s * s) * (y * y);
    assert 2.0 * (s * s) == 1.0;
  }

  /** H keeps the norm squared of every two-entry vector. */
  lemma HConservaNorma(s: real, a: Complex, b: Complex)
    requires Sq(s) == 0.5
    ensures NormSq(Producto(Hadamard(s).matriz, [a, b])) == NormSq([a, b])
  {
    ProductoH(s, a, b);
    var p := C(s * a.re + s * b.re, s * a.im + s * b.im);
    var q := C(s * a.re - s * b.re, s * a.im - s * b.im);
    NormSq2(p, q);
    NormSq2(a, b);
    SumaDiferencia(s, a.re, b.re);
    SumaDiferencia(s, a.im, b.im);
  }

  /** H on a two-entry state whose image is normalised: no rescaling, derived id `<id>_H`. */
  lemma HSinReescalar(e: Estado, s: real, sqrt: real -> real)
    requires |e.vector| == 2 && Normalizado(Producto(Hadamard(s).matriz, e.vector))
    ensures Transformado(Hadamard(s), e, sqrt) == Ok(Estado(e.id + "_H", Producto(Hadamard(s).matriz, e.vector), e.base))
  {
    TransformadoSinReescalar(Hadamard(s), e, sqrt);
    assert e.id + "_" + Hadamard(s).nombre == e.id + "_H";
  }

  /**
   * H applied to a normalised two-entry state: the product keeps the norm, so
   * it is stored without rescaling, under the derived id `<id>_H`.
   */
  lemma AplicarHadamard(e: Estado, s: real, sqrt: real -> real)
    requires Sq(s) == 0.5 && |e.vector| == 2 && Normalizado(e.vector)
    ensures NormSq(Producto(Hadamard(s).matriz, e.vector)) == NormSq(e.vector)
    ensures Transformado(Hadamard(s), e, sqrt) == Ok(Estado(e.id + "_H", Producto(Hadamard(s).matriz, e.vector), e.base))
  {
    assert e.vector == [e.vector[0], e.vector[1]];
    HConservaNorma(s, e.vector[0], e.vector[1]);
    HSinReescalar(e, s, sqrt);
  }

  /** H maps |0> to [s, s], already normalised, under id `<id>_H`. */
  lemma HadamardSobreCero(e: Estado, s: real, sqrt: real -> real)
    requires Sq(s) == 0.5 && e.vector == [One, Zero]
    ensures Transformado(Hadamard(s), e, sqrt) == Ok(Estado(e.id + "_H", [Real(s), Real(s)], e.base))
  {
    ProductoH(s, One, Zero);
    assert Producto(Hadamard(s).matriz, e.vector) == [Real(s), Real(s)];
    NormSq2(Real(s), Real(s));
    HSinReescalar(e, s, sqrt);
  }

  /** The product of H with `[s, s]` is `[1, 0]` when s*s == 1/2. */
  lemma ProductoHMas(s: real)
    requires Sq(s) == 0.5
    ensures Producto(Hadamard(s).matriz, [Real(s), Real(s)]) == [One, Zero]
  {
    var a := Real(s);
    assert a.re == s && a.im == 0.0;
    ProductoH(s, a, a);
    assert s * a.re + s * a.re == 1.0;
    assert s * a.im + s * a.im == 0.0;
    assert s * a.re - s * a.re == 0.0;
    assert s * a.im - s * a.im == 0.0;
  }

  /** H applied to a two-entry state whose image is |0> yields |0> under id `<id>_H`. */
  lemma HadamardHaciaCero(e: Estado, s: real, sqrt: real -> real)
    requires |e.vector| == 2 && Producto(Hadamard(s).matriz, e.vector) == [One, Zero]
    ensures Transformado(Hadamard(s), e, sqrt) == Ok(Estado(e.id + "_H", [One, Zero], e.base))
  {
    NormSq2(One, Zero);
    HSinReescalar(e, s, sqrt);
  }

  /** H maps [s, s] back to |0>, under id `<id>_H`. */
  lemma HadamardSobreMas(e: Estado, s: real, sqrt: real -> real)
    requires Sq(s) == 0.5 && e.vector == [Real(s), Real(s)]
    ensures Transformado(Hadamard(s), e, sqrt) == Ok(Estado(e.id + "_H", [One, Zero], e.base))
  {
    ProductoHMas(s);
    HadamardHaciaCero(e, s, sqrt);
  }

  /**
   * H applied to |0> gives [s, s] with id `<id>_H`, which is already normalised;
   * H applied again gives back |0> with id `<id>_H_H`.
   */
  lemma HadamardDosVeces(e: Estado, s: real, sqrt: real -> real)
    requires Sq(s) == 0.5
    requires e.vector == [One, Zero]
    ensures Transformado(Hadamard(s), e, sqrt) == Ok(Estado(e.id + "_H", [Real(s), Real(s)], e.base))
    ensures Transformado(Hadamard(s), Estado(e.id + "_H", [Real(s), Real(s)], e.base), sqrt)
         == Ok(Estado(e.id + "_H_H", [One, Zero], e.base))
  {
    HadamardSobreCero(e, s, sqrt);
    HadamardSobreMas(Estado(e.id + "_H", [Real(s), Real(s)], e.base), s, sqrt);
    SufijoDoble(e.id);
  }

  /**
   * For every normalised two-entry state, applying H twice through `aplicar`
   * gives back the same amplitudes, under id `<id>_H_H` and the same basis.
   */
  lemma HadamardDosVecesGeneral(e: Estado, s: real, sqrt: real -> real)
    requires Sq(s) == 0.5 && |e.vector| == 2 && Normalizado(e.vector)
    ensures Transformado(Hadamard(s), e, sqrt).Ok?
    ensures Transformado(Hadamard(s), Transformado(Hadamard(s), e, sqrt).value, sqrt)
         == Ok(Estado(e.id + "_H_H", e.vector, e.base))
  {
    var a, b := e.vector[0], e.vector[1];
    assert e.vector == [a, b];
    AplicarHadamard(e, s, sqrt);
    var t := Estado(e.id + "_H", Producto(Hadamard(s).matriz, e.vector), e.base);
    assert Normalizado(t.vector);
    AplicarHadamard(t, s, sqrt);
    HadamardInvolutivo(s, a, b);
    SufijoDoble(e.id);
  }
}
