/**
 * The registry of named quantum states. It keeps a dictionary from id to
 * state; a Python dict iterates in insertion order, so the model keeps the
 * keys' order beside the map. Listing, saving and loading follow that order.
 */
module RepositorioDeEstados {
  import opened ComplexNumbers
  import opened Outcomes
  import opened Decimal
  import opened EstadoCuantico
  import opened OperadorCuantico

  /** The single line listed for an empty registry. */
  const MensajeVacio: string := "No hay estados cuánticos registrados."

  predicate SinRepetidos(s: seq<string>) {
    forall i, j :: 0 <= i < j < |s| ==> s[i] != s[j]
  }

  /**
   * A well-formed table: the order lists each key once and nothing else, and
   * every state is stored under its own id.
   */
  ghost predicate TablaValida(orden: seq<string>, estados: map<string, Estado>) {
    SinRepetidos(orden)
    && (forall k :: k in estados <==> k in orden)
    && (forall k :: k in estados ==> estados[k].id == k)
  }

  /** The key order of a dict after `d[k] = x`: a new key goes last, an existing one keeps its place. */
  function OrdenTras(orden: seq<string>, estados: map<string, Estado>, k: string): (r: seq<string>)
    ensures orden <= r && |r| <= |orden| + 1
    ensures k !in estados ==> |r| == |orden| + 1 && r[|orden|] == k
    ensures k in estados ==> r == orden
  {
    if k in estados then orden else orden + [k]
  }

  /** Storing a state under its own id keeps a table well-formed. */
  lemma InsertarValida(orden: seq<string>, estados: map<string, Estado>, e: Estado)
    requires TablaValida(orden, estados)
    ensures TablaValida(OrdenTras(orden, estados, e.id), estados[e.id := e])
  {
  }

  /** A sequence without repetitions has as many distinct elements as entries. */
  lemma {:induction false} CardinalSinRepetidos(s: seq<string>)
    requires SinRepetidos(s)
    ensures |set k | k in s| == |s|
  {
    if |s| > 0 {
      var p := s[..|s| - 1];
      var x := s[|s| - 1];
      assert SinRepetidos(p);
      CardinalSinRepetidos(p);
      assert (set k | k in s) == (set k | k in p) + {x};
      assert x !in (set k | k in p);
    }
  }

  /** In a well-formed table the order has one entry per stored state. */
  lemma CardinalTabla(orden: seq<string>, estados: map<string, Estado>)
    requires TablaValida(orden, estados)
    ensures |orden| == |estados|
  {
    CardinalSinRepetidos(orden);
    assert estados.Keys == set k | k in orden;
  }

  // ---------------------------------------------------------------------------
  // The stored form: `guardar` writes, `cargar` reads

  /**
   * One record of the saved list as it is read back: each of the three keys
   * may be missing, and each amplitude is a list of numbers, normally the
   * pair [real, imag].
   */
  datatype Registro = Registro(id: Option<string>, base: Option<string>, vector: Option<seq<seq<real>>>)

  /** The record `guardar` writes for a state: its id, its basis and one [real, imag] pair per amplitude. */
  function Codificar(e: Estado): (r: Registro)
    ensures r.id == Some(e.id) && r.base == Some(e.base) && r.vector.Some?
    ensures |r.vector.value| == |e.vector|
    ensures forall j :: 0 <= j < |e.vector| ==> r.vector.value[j] == [e.vector[j].re, e.vector[j].im]
  {
    Registro(Some(e.id), Some(e.base), Some(seq(|e.vector|, j requires 0 <= j < |e.vector| => [e.vector[j].re, e.vector[j].im])))
  }

  /**
   * `[complex(p[0], p[1]) for p in vector_raw]`: IndexError when some entry has
   * fewer than two numbers; numbers past the second are ignored.
   */
  function Pares(raw: seq<seq<real>>): (r: Result<seq<Complex>>)
    ensures r.Err? <==> exists j :: 0 <= j < |raw| && |raw[j]| < 2
    ensures r.Err? ==> r.error == IndexError
    ensures r.Ok? ==> |r.value| == |raw| && forall j :: 0 <= j < |raw| ==> r.value[j] == C(raw[j][0], raw[j][1])
  {
    if exists j :: 0 <= j < |raw| && |raw[j]| < 2 then Err(IndexError)
    else Ok(seq(|raw|, j requires 0 <= j < |raw| => C(raw[j][0], raw[j][1])))
  }

  /**
   * One pass of `cargar`'s loop: read "id", "base" and "vector" (KeyError when
   * one is missing), rebuild the amplitudes and construct the state, which
   * normalises it again.
   */
  function Decodificar(reg: Registro, sqrt: real -> real): (r: Result<Estado>)
    ensures reg.id.None? || reg.base.None? || reg.vector.None? ==> r == Err(KeyError)
    ensures r.Ok? ==> reg.id == Some(r.value.id) && reg.base == Some(r.value.base)
    ensures r.Ok? ==> |r.value.vector| == |reg.vector.value| > 0
  {
    if reg.id.None? || reg.base.None? || reg.vector.None? then Err(KeyError)
    else match Pares(reg.vector.value)
      case Err(err) => Err(err)
      case Ok(v) => CrearEstado(reg.id.value, v, reg.base.value, sqrt)
  }

  /** The pair encoding is read back exactly. */
  lemma ParesCodificados(e: Estado)
    ensures Pares(Codificar(e).vector.value) == Ok(e.vector)
  {
    var raw := Codificar(e).vector.value;
    assert forall j :: 0 <= j < |raw| ==> |raw[j]| == 2;
    assert Pares(raw).Ok?;
    var v := Pares(raw).value;
    assert forall j :: 0 <= j < |v| ==> v[j] == e.vector[j];
    assert v == e.vector;
  }

  /**
   * A stored state is non-empty and normalised, so reading back its record
   * gives the same state: the constructor keeps a normalised vector.
   */
  lemma DecodificarCodificar(e: Estado, sqrt: real -> real)
    requires |e.vector| > 0 && Normalizado(e.vector)
    ensures Decodificar(Codificar(e), sqrt) == Ok(e)
  {
    ParesCodificados(e);
  }

  /** The list `guardar` writes: one record per state, in insertion order. */
  function Volcado(orden: seq<string>, estados: map<string, Estado>): (r: seq<Registro>)
    requires forall k :: k in orden ==> k in estados
    ensures |r| == |orden|
  {
    seq(|orden|, i requires 0 <= i < |orden| => Codificar(estados[orden[i]]))
  }

  /** The outcome of reading a list of records: the table left behind and whether every record was read. */
  datatype Carga = Carga(orden: seq<string>, estados: map<string, Estado>, ok: bool)

  /**
   * `cargar`'s loop from a given table: records are stored left to right
   * under their ids, a later record with the same id overwriting an earlier
   * one; the first record that raises stops the loop with `ok` false and
   * leaves the records before it stored.
   */
  function Recargar(regs: seq<Registro>, sqrt: real -> real, orden: seq<string>, estados: map<string, Estado>): (c: Carga)
    ensures c.ok <==> forall i :: 0 <= i < |regs| ==> Decodificar(regs[i], sqrt).Ok?
    ensures forall k :: k in estados ==> k in c.estados
    ensures orden <= c.orden
    decreases |regs|
  {
    if |regs| == 0 then Carga(orden, estados, true)
    else match Decodificar(regs[0], sqrt)
      case Err(_) => Carga(orden, estados, false)
      case Ok(e) => Recargar(regs[1..], sqrt, OrdenTras(orden, estados, e.id), estados[e.id := e])
  }

  /** Reading records keeps a table well-formed, whether or not every record is read. */
  lemma {:induction false} RecargarValida(regs: seq<Registro>, sqrt: real -> real, orden: seq<string>, estados: map<string, Estado>)
    requires TablaValida(orden, estados)
    ensures TablaValida(Recargar(regs, sqrt, orden, estados).orden, Recargar(regs, sqrt, orden, estados).estados)
    decreases |regs|
  {
    if |regs| > 0 {
      var d := Decodificar(regs[0], sqrt);
      if d.Ok? {
        InsertarValida(orden, estados, d.value);
        RecargarValida(regs[1..], sqrt, OrdenTras(orden, estados, d.value.id), estados[d.value.id := d.value]);
      }
    }
  }

  /**
   * No rollback: when a record fails, the table holds exactly what the
   * records before it produced, and the load reports failure.
   */
  lemma {:induction false} RecargarSinRollback(previos: seq<Registro>, malo: Registro, resto: seq<Registro>,
                                              sqrt: real -> real, orden: seq<string>, estados: map<string, Estado>)
    requires Decodificar(malo, sqrt).Err?
    requires Recargar(previos, sqrt, orden, estados).ok
    ensures Recargar(previos + [malo] + resto, sqrt, orden, estados)
         == Recargar(previos, sqrt, orden, estados).(ok := false)
    decreases |previos|
  {
    if |previos| == 0 {
      assert previos + [malo] + resto == [malo] + resto;
    } else {
      var e := Decodificar(previos[0], sqrt).value;
      assert (previos + [malo] + resto)[1..] == previos[1..] + [malo] + resto;
      RecargarSinRollback(previos[1..], malo, resto, sqrt, OrdenTras(orden, estados, e.id), estados[e.id := e]);
    }
  }

  /**
   * The last record read wins: after the records before it were read, a
   * readable record is stored under its id, replacing any earlier state with
   * that id and keeping that id's place in the order.
   */
  lemma {:induction false} RecargarUltimo(previos: seq<Registro>, reg: Registro, sqrt: real -> real,
                                         orden: seq<string>, estados: map<string, Estado>)
    requires Recargar(previos, sqrt, orden, estados).ok
    requires Decodificar(reg, sqrt).Ok?
    ensures var antes := Recargar(previos, sqrt, orden, estados);
            var e := Decodificar(reg, sqrt).value;
            Recargar(previos + [reg], sqrt, orden, estados)
              == Carga(OrdenTras(antes.orden, antes.estados, e.id), antes.estados[e.id := e], true)
    decreases |previos|
  {
    if |previos| == 0 {
      assert previos + [reg] == [reg];
    } else {
      var e := Decodificar(previos[0], sqrt).value;
      assert (previos + [reg])[1..] == previos[1..] + [reg];
      RecargarUltimo(previos[1..], reg, sqrt, OrdenTras(orden, estados, e.id), estados[e.id := e]);
    }
  }

  /** The part of a table whose keys appear in `ks`. */
  function Restringir(estados: map<string, Estado>, ks: seq<string>): map<string, Estado> {
    map k | k in estados && k in ks :: estados[k]
  }

  /** Storing the next key of a well-formed order on top of the table of its prefix gives the table of the longer prefix. */
  lemma ExtenderPrefijo(orden: seq<string>, estados: map<string, Estado>, n: nat)
    requires TablaValida(orden, estados)
    requires n < |orden|
    ensures orden[n] !in Restringir(estados, orden[..n])
    ensures OrdenTras(orden[..n], Restringir(estados, orden[..n]), orden[n]) == orden[..n + 1]
    ensures Restringir(estados, orden[..n])[orden[n] := estados[orden[n]]] == Restringir(estados, orden[..n + 1])
  {
    var k := orden[n];
    assert k !in orden[..n] by {
      forall i | 0 <= i < n ensures orden[..n][i] != k {
        assert orden[i] != orden[n];
      }
    }
    assert orden[..n] + [k] == orden[..n + 1];
  }

  /** One step of reading back a saved table: the record of `orden[n]` decodes to its state and extends the prefix. */
  lemma PasoVolcado(orden: seq<string>, estados: map<string, Estado>, sqrt: real -> real, n: nat)
    requires TablaValida(orden, estados)
    requires forall k :: k in estados ==> |estados[k].vector| > 0 && Normalizado(estados[k].vector)
    requires n < |orden|
    ensures Recargar(Volcado(orden, estados)[n..], sqrt, orden[..n], Restringir(estados, orden[..n]))
         == Recargar(Volcado(orden, estados)[n + 1..], sqrt, orden[..n + 1], Restringir(estados, orden[..n + 1]))
  {
    var regs := Volcado(orden, estados)[n..];
    var e := estados[orden[n]];
    assert regs[0] == Codificar(e);
    DecodificarCodificar(e, sqrt);
    ExtenderPrefijo(orden, estados, n);
    assert regs[1..] == Volcado(orden, estados)[n + 1..];
  }

  /** Reading the records of `orden[n..]` on top of the table of `orden[..n]` rebuilds the whole table. */
  lemma {:induction false} RecargarVolcadoDesde(orden: seq<string>, estados: map<string, Estado>, sqrt: real -> real, n: nat)
    requires TablaValida(orden, estados)
    requires forall k :: k in estados ==> |estados[k].vector| > 0 && Normalizado(estados[k].vector)
    requires n <= |orden|
    ensures Recargar(Volcado(orden, estados)[n..], sqrt, orden[..n], Restringir(estados, orden[..n]))
         == Carga(orden, estados, true)
    decreases |orden| - n
  {
    if n == |orden| {
      assert orden[..n] == orden;
      assert Restringir(estados, orden) == estados;
      assert Volcado(orden, estados)[n..] == [];
    } else {
      PasoVolcado(orden, estados, sqrt, n);
      RecargarVolcadoDesde(orden, estados, sqrt, n + 1);
    }
  }

  /**
   * Round trip: when every stored state is non-empty and normalised (as
   * construction leaves it), loading what `guardar` wrote into an emptied
   * table restores the same states in the same order and reports success.
   */
  lemma GuardarCargar(orden: seq<string>, estados: map<string, Estado>, sqrt: real -> real)
    requires TablaValida(orden, estados)
    requires forall k :: k in estados ==> |estados[k].vector| > 0 && Normalizado(estados[k].vector)
    ensures Recargar(Volcado(orden, estados), sqrt, [], map[]) == Carga(orden, estados, true)
  {
    RecargarVolcadoDesde(orden, estados, sqrt, 0);
    assert orden[..0] == [];
    assert Restringir(estados, []) == map[];
    assert Volcado(orden, estados)[0..] == Volcado(orden, estados);
  }

  /** The text of each state, in the given key order. */
  function Renderizado(orden: seq<string>, estados: map<string, Estado>, render: Estado -> string): (lineas: seq<string>)
    requires TablaValida(orden, estados)
    ensures |lineas| == |orden|
    ensures forall i :: 0 <= i < |orden| ==> lineas[i] == render(estados[orden[i]])
    ensures forall k :: k in estados ==> render(estados[k]) in lineas
  {
    var lineas := seq(|orden|, i requires 0 <= i < |orden| => render(estados[orden[i]]));
    assert forall k :: k in estados ==> render(estados[k]) in lineas by {
      forall k | k in estados ensures render(estados[k]) in lineas {
        var i :| 0 <= i < |orden| && orden[i] == k;
        assert lineas[i] == render(estados[k]);
      }
    }
    lineas
  }

  /** The id `aplicar_operador` stores the result under: `nuevo_id`, or `<id>_<nombre>` when none is given. */
  function IdFinal(idEstado: string, op: Operador, nuevoId: Option<string>): (r: string)
    ensures nuevoId.Some? ==> r == nuevoId.value
    ensures nuevoId.None? ==> idEstado < r
  {
    if nuevoId.Some? then nuevoId.value else idEstado + "_" + op.nombre
  }

  /**
   * The registry object. `estados` is the dictionary; `orden` is its key
   * order. An exception that escapes a method is returned as `Err`, and
   * leaves the table as it was.
   */
  class Repositorio {
    var estados: map<string, Estado>
    var orden: seq<string>

    ghost predicate Valid()
      reads this
    {
      TablaValida(orden, estados)
    }

    /** A new registry is empty. */
    constructor ()
      ensures Valid()
      ensures estados == map[] && orden == []
    {
      estados := map[];
      orden := [];
    }

    /** `obtener_estado`: the state stored under `id`, or None when there is none. */
    function ObtenerEstado(id: string): (r: Option<Estado>)
      reads this
      requires Valid()
      ensures r.Some? <==> id in estados
      ensures r.Some? ==> r.value == estados[id] && r.value.id == id
    {
      if id in estados then Some(estados[id]) else None
    }

    /**
     * `listar_estados`: the single "no states" line when the table is empty,
     * otherwise one line per stored state, each the state's text as `render`
     * gives it, in insertion order.
     */
    function ListarEstados(render: Estado -> string): (lineas: seq<string>)
      reads this
      requires Valid()
      ensures |estados| == 0 ==> lineas == [MensajeVacio]
      ensures |estados| > 0 ==> |lineas| == |orden| == |estados|
      ensures |estados| > 0 ==> forall i :: 0 <= i < |orden| ==> lineas[i] == render(estados[orden[i]])
      ensures |estados| > 0 ==> forall k :: k in estados ==> render(estados[k]) in lineas
    {
      CardinalTabla(orden, estados);
      if |estados| == 0 then [MensajeVacio]
      else Renderizado(orden, estados, render)
    }

    /**
     * `agregar_estado`: an id already present is refused with the table
     * unchanged; otherwise the state is built and stored under `id` at the end
     * of the order. A ValueError from construction is caught and reported as
     * false; a ZeroDivisionError escapes.
     */
    method AgregarEstado(id: string, vector: seq<Complex>, base: string, sqrt: real -> real) returns (r: Result<bool>)
      requires Valid()
      modifies this
      ensures Valid()
      ensures id in old(estados) ==> r == Ok(false) && estados == old(estados) && orden == old(orden)
      ensures id !in old(estados) && CrearEstado(id, vector, base, sqrt).Ok? ==>
                r == Ok(true)
                && estados == old(estados)[id := CrearEstado(id, vector, base, sqrt).value]
                && orden == old(orden) + [id]
      ensures id !in old(estados) && CrearEstado(id, vector, base, sqrt).Err? ==>
                estados == old(estados) && orden == old(orden)
                && r == (if CrearEstado(id, vector, base, sqrt).error == ValueError then Ok(false)
                         else Err(CrearEstado(id, vector, base, sqrt).error))
    {
      if id in estados {
        return Ok(false);
      }
      var nuevo := CrearEstado(id, vector, base, sqrt);
      match nuevo {
        case Err(err) =>
          if err == ValueError {
            return Ok(false);
          }
          return Err(err);
        case Ok(e) =>
          InsertarValida(orden, estados, e);
          orden := orden + [id];
          estados := estados[id := e];
          return Ok(true);
      }
    }

    /**
     * `aplicar_operador`: a missing source state gives false; otherwise the
     * operator is applied and the result is stored, with its id replaced by the
     * final id, overwriting any state already under that id. A ValueError is
     * caught and reported as false; IndexError and ZeroDivisionError escape.
     * The table changes only on success.
     */
    method AplicarOperador(idEstado: string, op: Operador, nuevoId: Option<string>, sqrt: real -> real) returns (r: Result<bool>)
      requires Valid()
      modifies this
      ensures Valid()
      ensures idEstado !in old(estados) ==> r == Ok(false) && estados == old(estados) && orden == old(orden)
      ensures idEstado in old(estados) ==>
                var t := Transformado(op, old(estados)[idEstado], sqrt);
                var k := IdFinal(idEstado, op, nuevoId);
                (t.Err? ==> estados == old(estados) && orden == old(orden)
                            && r == (if t.error == ValueError then Ok(false) else Err(t.error)))
                && (t.Ok? ==> r == Ok(true)
                              && estados == old(estados)[k := t.value.(id := k)]
                              && orden == OrdenTras(old(orden), old(estados), k))
      ensures r == Ok(true) && IdFinal(idEstado, op, nuevoId) != idEstado ==>
                idEstado in estados && estados[idEstado] == old(estados)[idEstado]
    {
      var estado := ObtenerEstado(idEstado);
      if estado.None? {
        return Ok(false);
      }
      var t := Aplicar(op, estado.value, sqrt);
      match t {
        case Err(err) =>
          if err == ValueError {
            return Ok(false);
          }
          return Err(err);
        case Ok(nuevo) =>
          var k := IdFinal(idEstado, op, nuevoId);
          var guardado := nuevo.(id := k);
          InsertarValida(orden, estados, guardado);
          orden := OrdenTras(orden, estados, k);
          estados := estados[k := guardado];
          return Ok(true);
      }
    }

    /**
     * `medir_estado`: None when no state has the id; otherwise the
     * probabilities of `medir` for the stored state, which stays as it was.
     */
    method MedirEstado(id: string) returns (r: Option<map<string, real>>)
      requires Valid()
      ensures r.None? <==> id !in estados
      ensures r.Some? ==> r.value.Keys == Claves(|estados[id].vector|)
      ensures r.Some? ==> forall i :: 0 <= i < |estados[id].vector| ==>
                NatToString(i) in r.value && r.value[NatToString(i)] == Abs2(estados[id].vector[i])
      ensures r.Some? ==> Total(r.value, |estados[id].vector|) == NormSq(estados[id].vector)
    {
      var estado := ObtenerEstado(id);
      if estado.None? {
        return None;
      }
      var probs := Medir(estado.value);
      return Some(probs);
    }

    /**
     * `guardar`, without the file: the list of records written, one per state
     * in insertion order.
     */
    method Guardar() returns (registros: seq<Registro>)
      requires Valid()
      ensures |registros| == |estados|
      ensures registros == Volcado(orden, estados)
    {
      registros := [];
      var i := 0;
      while i < |orden|
        invariant 0 <= i <= |orden|
        invariant registros == Volcado(orden[..i], estados)
      {
        assert orden[..i + 1] == orden[..i] + [orden[i]];
        registros := registros + [Codificar(estados[orden[i]])];
        i := i + 1;
      }
      assert orden[..|orden|] == orden;
      CardinalTabla(orden, estados);
    }

    /**
     * `cargar`, with the file's existence and its parsed contents as
     * parameters: a missing file gives false and leaves the table alone;
     * otherwise the table is cleared and the records are read in order, and
     * a record that raises ends the load with false, keeping the records read
     * before it.
     */
    method Cargar(existe: bool, registros: seq<Registro>, sqrt: real -> real) returns (ok: bool)
      requires Valid()
      modifies this
      ensures Valid()
      ensures !existe ==> !ok && estados == old(estados) && orden == old(orden)
      ensures existe ==> Carga(orden, estados, ok) == Recargar(registros, sqrt, [], map[])
    {
      if !existe {
        return false;
      }
      estados := map[];
      orden := [];
      var i := 0;
      while i < |registros|
        invariant 0 <= i <= |registros|
        invariant Valid()
        invariant Recargar(registros[i..], sqrt, orden, estados) == Recargar(registros, sqrt, [], map[])
      {
        var d := Decodificar(registros[i], sqrt);
        if d.Err? {
          return false;
        }
        assert registros[i..][1..] == registros[i + 1..];
        InsertarValida(orden, estados, d.value);
        orden := OrdenTras(orden, estados, d.value.id);
        estados := estados[d.value.id := d.value];
        i := i + 1;
      }
      return true;
    }
  }
}
