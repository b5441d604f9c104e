# Quantum state simulator — Dafny model

This project models the core of a small object-oriented quantum-state simulator:

- `EstadoCuantico` is a named state. It holds an id, a vector of complex amplitudes and a basis label. Construction rejects an empty vector and rescales the vector to unit norm when it is off by more than 1e-9. `medir` returns the probability of each basis outcome.
- `OperadorCuantico` is a named matrix. Construction rejects an empty matrix, a matrix with an empty row, and a matrix whose row count differs from the length of its first row. `aplicar` multiplies the matrix by a state's vector and builds a new state under the id `<id>_<nombre>`.
- `RepositorioDeEstados` is the registry of states, keyed by id. It lists, adds, looks up and measures states. It applies an operator and stores the result. It also turns the table into a list of records and back (`guardar`, `cargar`).

The repository holds byte-identical copies of the three files at its root and under `src/`. The citations below use the `src/` copies.

Modelling choices:

- **Values and objects.** States and operators never change after construction, so they are datatypes (`Estado`, `Operador`). The registry mutates its dictionary, so it is a class, `Repositorio`. Its field `estados` is a `map` and its field `orden` is the dict's insertion order. Listing and saving follow that order. Overwriting a key keeps its place.
- **Exceptions.** Python exceptions become `Result` values (`Outcomes.Error`).
  - A registry method returns `Ok(b)` for the boolean the Python method returns.
  - It returns `Err(e)` for an exception that escapes it: ZeroDivisionError from `agregar_estado`, and IndexError or ZeroDivisionError from `aplicar_operador`. In those cases the table is left unchanged.
- **Arithmetic.** Complex numbers use exact reals.
  - `cmath.sqrt` is a parameter `sqrt: real -> real`. Properties that need a true root assume `RaizExacta(sqrt, x)`.
  - Dividing by `complex(norm, 0)` is `DivReal`.
  - With `norm == 0` the source divides by `0j`, which raises ZeroDivisionError; the model returns that error.
- **Loops.** `medir`, `aplicar`, `guardar` and `cargar` loop in the source and are methods with loop invariants here. Each is proved against a specification function: `Total`/`NormSq`, `Transformado`, `Volcado` and `Recargar`.

Two behaviours of the code are easy to miss:
- Operator construction compares the row count with the length of row 0 only. Its error message, "La matriz del operador debe ser cuadrada" (src/operador_cuantico.py:20), says the matrix must be square, but that check does not enforce it for the other rows. A ragged matrix is accepted, and `aplicar` then raises IndexError on a short row (`FilaCortaAceptada`).
- Construction rejects only an empty vector with ValueError. A non-empty zero vector gets through that check, and normalising it raises ZeroDivisionError (`VectorNuloFalla`).

## Model

| member | source | states |
|---|---|---|
| ComplexNumbers.Abs2DivReal | src/estado_cuantico.py:40 | dividing an amplitude by a non-zero real norm divides its squared magnitude by the norm squared |
| Decimal.NatToString | src/estado_cuantico.py:55 | `str(i)`: a non-empty numeral, which `ParseNatToString` reads back as `i` |
| Decimal.ParseNatToString | src/estado_cuantico.py:55 | the outcome key `str(i)` reads back as `i` |
| Decimal.NatToStringInjective | src/estado_cuantico.py:55 | distinct indices give distinct outcome keys, so no probability overwrites another |
| EstadoCuantico.NormalizarVector | src/estado_cuantico.py:35-40 | a rescaled vector keeps its length; normalisation fails only with ZeroDivisionError, and only for a vector outside tolerance |
| EstadoCuantico.CrearEstado | src/estado_cuantico.py:14-21 | the result is ValueError exactly when the vector is empty; otherwise id and basis are kept and the length is unchanged; a vector already within tolerance is stored unchanged; any other error is ZeroDivisionError from a vector outside tolerance |
| EstadoCuantico.NormSq | src/estado_cuantico.py:37 | the norm squared `sum(abs(amp)**2)` is never negative |
| EstadoCuantico.Normalizado | src/estado_cuantico.py:38 | a vector whose norm squared is within 1e-9 of 1 is non-empty and has a positive norm squared |
| EstadoCuantico.Escalar | src/estado_cuantico.py:40 | dividing every amplitude by a non-zero real `r` keeps the length, and each new squared magnitude times `r*r` is the old one |
| EstadoCuantico.NormSqEsSuma | src/estado_cuantico.py:37 | the norm squared is the sum of the squared magnitudes of the amplitudes |
| EstadoCuantico.NormSqEscalar | src/estado_cuantico.py:37-40 | dividing every amplitude by `r` divides the norm squared by `r*r` |
| EstadoCuantico.ReescaladoUnitario | src/estado_cuantico.py:38-40 | with a true square root, a vector outside tolerance with non-zero norm is divided entry by entry by its norm, and the result has norm squared exactly 1 |
| EstadoCuantico.ConstruccionNormaliza | src/estado_cuantico.py:14-21 | with a true square root, construction from a non-empty vector fails exactly when its norm is zero, the failure is ZeroDivisionError, and a constructed state is normalised |
| EstadoCuantico.VectorNuloFalla | src/estado_cuantico.py:37-40 | a non-empty all-zero vector makes construction raise ZeroDivisionError |
| EstadoCuantico.NormalizarIdempotente | src/estado_cuantico.py:35-40 | with a true square root, normalising a normalised result again returns it unchanged |
| EstadoCuantico.TotalEsNormSq | src/estado_cuantico.py:51-56 | the probabilities stored under "0" .. str(n-1) add up to the norm squared of the first n amplitudes |
| EstadoCuantico.ClavesIndices | src/estado_cuantico.py:52-55 | the outcome keys of an n-entry state are exactly `str(i)` for `i < n`, and there are n of them |
| EstadoCuantico.MedirPaso | src/estado_cuantico.py:52-55 | recording outcome i extends the record of outcomes 0 .. i-1 by one entry without disturbing the others |
| EstadoCuantico.Medir | src/estado_cuantico.py:42-56 | one entry per amplitude, keyed `str(i)`, holding `abs(amp)**2`; all entries are non-negative and add up to the norm squared, which is within 1e-9 of 1 for a constructed state and exactly 1 when it was rescaled (`ReescaladoUnitario`) |
| OperadorCuantico.CrearOperador | src/operador_cuantico.py:14-23 | accepted exactly when the matrix is non-empty, has no empty row and has as many rows as row 0 has entries; refusal is ValueError; an accepted operator keeps name and matrix, and its dimension is the row count; every square matrix (each row as long as the row count) is accepted with complete rows |
| OperadorCuantico.NoCuadradaRechazada | src/operador_cuantico.py:17-20 | the 2x3 matrix [[1,2,3],[4,5,6]] is refused with ValueError |
| OperadorCuantico.FilaCortaAceptada | src/operador_cuantico.py:15-20 | a matrix whose second row is short is accepted, because only row 0 is measured; applying it to a two-entry state raises IndexError |
| OperadorCuantico.Producto | src/operador_cuantico.py:57-60 | the matrix-vector product has one entry per row of the matrix; entry i is `SumaFila`, the left-to-right `sum` of `m[i][j] * v[j]` |
| OperadorCuantico.SumaFilaCero | src/operador_cuantico.py:59 | a row times the zero vector sums to zero |
| OperadorCuantico.ProductoCero | src/operador_cuantico.py:57-60 | the product of any matrix with the zero vector is the zero vector, so `aplicar` cannot turn a zero vector into a non-zero one |
| OperadorCuantico.CuadradaSinIndexError | src/operador_cuantico.py:14-64 | an operator built from any square matrix is accepted, and applying it to any state never raises IndexError |
| OperadorCuantico.Transformado | src/operador_cuantico.py:37-64 | a dimension mismatch raises ValueError; a result has id `<id>_<nombre>`, the input's basis and the operator's dimension; ValueError arises only from a mismatch or an empty vector; with matching dimensions, IndexError arises exactly when some row is shorter than the dimension |
| OperadorCuantico.Aplicar | src/operador_cuantico.py:51-64 | the row-by-row loop computes exactly `Transformado`, including IndexError on a short row |
| OperadorCuantico.Producto2 | src/operador_cuantico.py:58-60 | helper: the product of a two-row matrix with a two-entry vector, written out entry by entry |
| OperadorCuantico.NormSq2 | src/estado_cuantico.py:37 | helper: the norm squared of a two-entry vector is the sum of the two squared magnitudes |
| OperadorCuantico.TransformadoSinReescalar | src/operador_cuantico.py:57-64 | a product already within tolerance is returned unchanged, under the derived id and the input's basis |
| OperadorCuantico.ProductoX | src/operador_cuantico.py:57-60 | the X gate swaps the two amplitudes of any vector |
| OperadorCuantico.AplicarX | src/operador_cuantico.py:37-64 | X applied to a normalised two-entry state gives the swapped state with id `<id>_X` and the same basis |
| OperadorCuantico.ProductoH | src/operador_cuantico.py:57-60 | H maps `[a, b]` to `[s*a + s*b, s*a - s*b]` |
| OperadorCuantico.MitadesSeSuman | src/operador_cuantico.py:59 | helper: with `s*s == 1/2`, the two rows of H recombine into the original entries |
| OperadorCuantico.HadamardInvolutivo | src/operador_cuantico.py:57-60 | with `s*s == 1/2`, applying H's product twice gives back any two-entry vector |
| OperadorCuantico.SumaDiferencia | src/operador_cuantico.py:59 | helper: with `s*s == 1/2`, the squares of `s*x + s*y` and `s*x - s*y` add up to those of `x` and `y` |
| OperadorCuantico.HConservaNorma | src/operador_cuantico.py:57-60 | with `s*s == 1/2`, H's product keeps the norm squared of every two-entry vector |
| OperadorCuantico.HSinReescalar | src/operador_cuantico.py:57-64 | helper: H applied to a two-entry state whose product is already within tolerance yields that product under id `<id>_H` |
| OperadorCuantico.AplicarHadamard | src/operador_cuantico.py:37-64 | with `s*s == 1/2`, H applied to any normalised two-entry state keeps its norm squared, needs no rescaling, and yields the product under id `<id>_H` with the same basis |
| OperadorCuantico.HadamardSobreCero | src/operador_cuantico.py:37-64 | H maps the basis state `[1, 0]` to `[s, s]` with id `<id>_H` |
| OperadorCuantico.ProductoHMas | src/operador_cuantico.py:57-60 | with `s*s == 1/2`, the product of H with `[s, s]` is `[1, 0]` |
| OperadorCuantico.HadamardHaciaCero | src/operador_cuantico.py:37-64 | H applied to a two-entry state whose image is `[1, 0]` yields that image under id `<id>_H` |
| OperadorCuantico.HadamardSobreMas | src/operador_cuantico.py:37-64 | H maps `[s, s]` back to the basis state `[1, 0]` with id `<id>_H` |
| OperadorCuantico.HadamardDosVeces | src/operador_cuantico.py:37-64 | H applied twice to the basis state `[1, 0]` goes through `[s, s]` (`<id>_H`) and returns to the basis state `[1, 0]` (`<id>_H_H`) |
| OperadorCuantico.HadamardDosVecesGeneral | src/operador_cuantico.py:37-64 | with `s*s == 1/2`, H applied twice to any normalised two-entry state succeeds both times and returns the original vector and basis under id `<id>_H_H` |
| RepositorioDeEstados.OrdenTras | src/repositorio_estados.py:48 | storing under a key extends the insertion order by at most one key; a new key is appended at the end; a key already stored keeps its position and the order is unchanged |
| RepositorioDeEstados.InsertarValida | src/repositorio_estados.py:48 | storing a state under its own id keeps the table well-formed: unique keys, order equal to the key set, each state under its id |
| RepositorioDeEstados.CardinalTabla | src/repositorio_estados.py:25-27 | in a well-formed table the order has exactly one entry per stored state |
| RepositorioDeEstados.Codificar | src/repositorio_estados.py:144-150 | the saved record carries the id, the basis and one `[real, imag]` pair per amplitude |
| RepositorioDeEstados.Pares | src/repositorio_estados.py:186 | IndexError exactly when some entry has fewer than two numbers; otherwise amplitude j is `complex(p[0], p[1])` |
| RepositorioDeEstados.Decodificar | src/repositorio_estados.py:182-189 | a missing key gives KeyError; a decoded state carries the record's id and basis and a non-empty vector of the record's length |
| RepositorioDeEstados.ParesCodificados | src/repositorio_estados.py:144-186 | the pair encoding reads back exactly the amplitudes written |
| RepositorioDeEstados.DecodificarCodificar | src/repositorio_estados.py:144-189 | a non-empty, normalised state reads back from its record as the same state |
| RepositorioDeEstados.Volcado | src/repositorio_estados.py:137-150 | the saved list has one record per key, in insertion order |
| RepositorioDeEstados.Recargar | src/repositorio_estados.py:180-189 | reading records left to right reports success exactly when every record decodes; no key already present is lost and the existing order is kept as a prefix |
| RepositorioDeEstados.RecargarValida | src/repositorio_estados.py:180-189 | loading keeps the table well-formed whether or not it stops early |
| RepositorioDeEstados.RecargarSinRollback | src/repositorio_estados.py:181-200 | a failing record ends the load with false and keeps exactly what the records before it stored |
| RepositorioDeEstados.RecargarUltimo | src/repositorio_estados.py:181-189 | a readable record is stored under its id after those before it, replacing an earlier state with that id and keeping that id's position |
| RepositorioDeEstados.ExtenderPrefijo | src/repositorio_estados.py:189 | in a well-formed order, the next key is new to the prefix table, and storing it gives the longer prefix's table and order |
| RepositorioDeEstados.PasoVolcado | src/repositorio_estados.py:181-189 | reading back the record of the next key extends the rebuilt prefix by one key |
| RepositorioDeEstados.RecargarVolcadoDesde | src/repositorio_estados.py:181-189 | reading the records of the remaining keys on top of a prefix rebuilds the whole table |
| RepositorioDeEstados.GuardarCargar | src/repositorio_estados.py:126-191 | loading what was saved from a table of constructed states restores the same states in the same order and reports success |
| RepositorioDeEstados.Renderizado | src/repositorio_estados.py:27 | one line per key, line i is the text of the state under the i-th key in insertion order, and every stored state's text is among them |
| RepositorioDeEstados.IdFinal | src/repositorio_estados.py:90 | the final id is `nuevo_id` when given; otherwise it strictly extends the source id (`<id>_<nombre>`) |
| RepositorioDeEstados.Repositorio.constructor | src/repositorio_estados.py:15-16 | a new registry is empty and well-formed |
| RepositorioDeEstados.Repositorio.ObtenerEstado | src/repositorio_estados.py:55-69 | Some exactly when the id is stored; the state found is the stored one and carries that id |
| RepositorioDeEstados.Repositorio.ListarEstados | src/repositorio_estados.py:18-27 | an empty table lists the single "no states" line; otherwise one line per state, line i is the text of the i-th state in insertion order, and every state's text appears |
| RepositorioDeEstados.Repositorio.AgregarEstado | src/repositorio_estados.py:29-53 | an existing id gives false with the table unchanged; a constructed state is stored under its id at the end of the order and gives true; ValueError gives false and ZeroDivisionError escapes, both leaving the table unchanged; the table stays well-formed |
| RepositorioDeEstados.Repositorio.AplicarOperador | src/repositorio_estados.py:71-104 | a missing source gives false; on success the result, renamed to `nuevo_id` or `<id>_<nombre>`, is stored under that id (overwriting, keeping a known key's position) and the source stays when the ids differ; ValueError gives false and other errors escape, both leaving the table unchanged |
| RepositorioDeEstados.Repositorio.MedirEstado | src/repositorio_estados.py:106-124 | None exactly when the id is missing; otherwise the stored state's probabilities, one per amplitude, adding up to its norm squared |
| RepositorioDeEstados.Repositorio.Guardar | src/repositorio_estados.py:136-155 | the records written are `Volcado` of the table: one per state, in insertion order |
| RepositorioDeEstados.Repositorio.Cargar | src/repositorio_estados.py:163-200 | a missing file gives false and leaves the table alone; otherwise the table is cleared and the records are read left to right, as `Recargar` describes; the table stays well-formed |

## Left out

- File I/O. `os.path.exists`, `open`, `json.dump` and `json.load` are not modelled. `Cargar` takes the file's existence and its parsed records as parameters. `Guardar` returns the records it would write.
- Failures of the file layer are not modelled: IOError and other exceptions in `guardar`, and JSONDecodeError in `cargar`. Neither are non-list or non-numeric JSON contents, where `complex(...)` raises TypeError.
- Guardar: does not model the `False` that `guardar` returns when the file cannot be written.
- The messages written with `print` and the formatted output of `medir_estado` are not modelled. MedirEstado returns the probabilities it would print.
- Floating point is not modelled. Amplitudes are exact reals, and `cmath.sqrt` is the parameter `sqrt`. The round trip in `GuardarCargar` therefore assumes that JSON preserves each float exactly.
- `__str__` and `__repr__` are not modelled; ListarEstados takes the text of a state as the parameter `render`.
- Aliasing is not modelled. The source returns its internal lists from the `vector` and `matriz` properties, and a caller could mutate them; here states and operators are values.
- `aplicar_operador` assigns `_id` after the state is built. The model stores a copy with the final id (`t.value.(id := k)`), which is the same observable state.
- ConstruccionNormaliza, ReescaladoUnitario, NormalizarIdempotente: these assume that `sqrt` is a true square root (`RaizExacta`).
- VectorNuloFalla: the converse (a vector with norm squared 0 is all zeros) is not proved.
- `main.py` (the interactive menu) and the test suite are not part of this model.
