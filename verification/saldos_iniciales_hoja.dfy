/** Filling the initial-balance test sheet
    (auditoria/processors/excel/initial_balance_tests/sheet_processing.py,
    `insertar_datos_en_hoja` and `encontrar_columna_por_texto`): the table
    "Evaluación de Saldos Iniciales" is found, then its header row and the
    account, final-balance and initial-balance columns; the accounts of the
    balance go one per row from row 29, rows being inserted at row 35, after
    the template row 34, when rows 29 to 34 do not have room enough. */
module SaldosInicialesHoja {
  import opened Wrappers
  import opened Text
  import opened Worksheet
  import PyDict
  import SumariaTabla
  import SaldosIniciales
  import SaldosInicialesFormula

  const FilaInicial := 29
  const FilaPlantilla := 34
  const MaximoCuentas := 100

  // ------------------------------------------------------------ searching

  /** A text cell whose lower-cased text holds "evaluación de saldos
      iniciales": the title of the table. */
  predicate EsTablaSaldos(v: Option<Value>) {
    v.Some? && v.value.Str? && Contains(Lower(v.value.s), "evaluación de saldos iniciales")
  }

  /** A text cell whose lower-cased text holds "cuenta": the header row. */
  predicate MencionaCuenta(v: Option<Value>) {
    v.Some? && v.value.Str? && Contains(Lower(v.value.s), "cuenta")
  }

  const TextosCuenta: seq<string> := ["cuenta"]
  const TextosFinal: seq<string> := ["segùnfinal", "según final", "31/12"]
  const TextosInicial: seq<string> := ["saldo incial", "s/contabilidad al", "01/01"]

  /** Some text of `textos`, lower-cased, occurs in `t`. */
  predicate AlgunTexto(t: string, textos: seq<string>) {
    textos != [] && (Contains(t, Lower(textos[0])) || AlgunTexto(t, textos[1..]))
  }

  lemma {:induction false} AlgunTextoEs(t: string, textos: seq<string>)
    ensures AlgunTexto(t, textos) <==> exists i :: 0 <= i < |textos| && Contains(t, Lower(textos[i]))
  {
    if textos != [] {
      AlgunTextoEs(t, textos[1..]);
      if exists i :: 0 <= i < |textos| && Contains(t, Lower(textos[i])) {
        var i :| 0 <= i < |textos| && Contains(t, Lower(textos[i]));
        if i > 0 {
          assert textos[1..][i - 1] == textos[i];
        }
      }
      if AlgunTexto(t, textos[1..]) {
        var i :| 0 <= i < |textos[1..]| && Contains(t, Lower(textos[1..][i]));
        assert textos[i + 1] == textos[1..][i];
      }
    }
  }

  /** A non-empty text cell whose lower-cased text holds one of `textos`. */
  predicate ConTexto(v: Option<Value>, textos: seq<string>) {
    v.Some? && v.value.Str? && v.value.s != "" && AlgunTexto(Lower(v.value.s), textos)
  }

  /** The first column from `c` to `maxc` of row `fila` whose cell holds one
      of `textos`. */
  function ColumnaConTexto(rows: Rows, fila: int, textos: seq<string>, c: int, maxc: int): (r: Option<int>)
    ensures r.Some? ==> c <= r.value <= maxc
    decreases maxc + 1 - c
  {
    if c > maxc then None
    else if ConTexto(CellOf(rows, fila, c), textos) then Some(c)
    else ColumnaConTexto(rows, fila, textos, c + 1, maxc)
  }

  /** The column found holds one of the texts and no column before it does;
      when none is found, no column in the range does. */
  lemma {:induction false} ColumnaConTextoEs(rows: Rows, fila: int, textos: seq<string>, c: int, maxc: int)
    ensures var res := ColumnaConTexto(rows, fila, textos, c, maxc);
      && (res.Some? ==> ConTexto(CellOf(rows, fila, res.value), textos))
      && (forall k :: c <= k <= maxc && (res.None? || k < res.value) ==> !ConTexto(CellOf(rows, fila, k), textos))
    decreases maxc + 1 - c
  {
    if c <= maxc && !ConTexto(CellOf(rows, fila, c), textos) {
      ColumnaConTextoEs(rows, fila, textos, c + 1, maxc);
    }
  }

  /** `encontrar_columna_por_texto(sheet, fila, textos)` */
  method EncontrarColumnaPorTexto(sheet: Sheet, fila: int, textos: seq<string>) returns (col: Option<int>)
    ensures col == ColumnaConTexto(sheet.rows, fila, textos, 1, sheet.maxColumn)
  {
    for c := 1 to sheet.maxColumn + 1
      invariant ColumnaConTexto(sheet.rows, fila, textos, 1, sheet.maxColumn) == ColumnaConTexto(sheet.rows, fila, textos, c, sheet.maxColumn)
    {
      var v := CellOf(sheet.rows, fila, c);
      if v.Some? && v.value.Str? && v.value.s != "" {
        var t := Lower(v.value.s);
        if AlgunTexto(t, textos) {
          return Some(c);
        }
      }
    }
    return None;
  }

  /** The three columns the data go to. */
  datatype Columnas = Columnas(cuenta: int, final: int, inicial: int)

  predicate Validas(cols: Columnas) {
    cols.cuenta >= 1 && cols.final >= 1 && cols.inicial >= 1
  }

  /** The table, its header row and the three columns, or None where the
      source returns early. */
  function Ubicar(st: State): (r: Option<Columnas>)
    ensures r.Some? ==> Validas(r.value)
  {
    var t := SumariaTabla.PrimeraFila(st.rows, 1, 50, EsTablaSaldos);
    if t.None? then None
    else
      var h := SumariaTabla.PrimeraFila(st.rows, t.value, t.value + 5, MencionaCuenta);
      if h.None? then None
      else
        var cc := ColumnaConTexto(st.rows, h.value, TextosCuenta, 1, st.maxColumn);
        var cf := ColumnaConTexto(st.rows, h.value, TextosFinal, 1, st.maxColumn);
        var ci := ColumnaConTexto(st.rows, h.value, TextosInicial, 1, st.maxColumn);
        if cc.None? || ci.None? || cf.None? then None
        else Some(Columnas(cc.value, cf.value, ci.value))
  }

  // ------------------------------------------------------------- accounts

  /** The entries of one section from entry `i` on, in order, except the
      accounts whose lower-cased name holds "inversiones", each with its
      balance. */
  function CuentasDe(d: PyDict.Dict<string, real>, i: nat): seq<(string, real)>
    requires i <= |d|
    decreases |d| - i
  {
    if i == |d| then []
    else
      var resto := CuentasDe(d, i + 1);
      if Contains(Lower(d[i].0), "inversiones") then resto
      else
        assert PyDict.HasKey(d, d[i].0);
        [(d[i].0, PyDict.Get(d, d[i].0).value)] + resto
  }

  /** Every account listed is a key of the section, with its balance, and
      none holds "inversiones". */
  lemma {:induction false} CuentasDeSolo(d: PyDict.Dict<string, real>, i: nat, e: (string, real))
    requires i <= |d| && e in CuentasDe(d, i)
    ensures !Contains(Lower(e.0), "inversiones") && PyDict.Get(d, e.0) == Some(e.1)
    decreases |d| - i
  {
    if e != CuentasDe(d, i)[0] {
      CuentasDeSolo(d, i + 1, e);
    } else if Contains(Lower(d[i].0), "inversiones") {
      CuentasDeSolo(d, i + 1, e);
    }
  }

  /** Every account of the section not holding "inversiones" is listed. */
  lemma {:induction false} CuentasDeTodas(d: PyDict.Dict<string, real>, i: nat, j: nat)
    requires i <= j < |d| && !Contains(Lower(d[j].0), "inversiones")
    ensures PyDict.HasKey(d, d[j].0) && (d[j].0, PyDict.Get(d, d[j].0).value) in CuentasDe(d, i)
    decreases j - i
  {
    if i < j {
      CuentasDeTodas(d, i + 1, j);
    }
  }

  /** `todas_las_cuentas`: the sections in their fixed order, those present,
      each with its accounts. */
  function TodasDesde(cb: SaldosIniciales.PorSeccion, k: nat): seq<(string, real)>
    requires k <= |SaldosIniciales.Secciones|
    decreases |SaldosIniciales.Secciones| - k
  {
    if k == |SaldosIniciales.Secciones| then []
    else
      var s := SaldosIniciales.Secciones[k];
      (if s in cb then CuentasDe(cb[s], 0) else []) + TodasDesde(cb, k + 1)
  }

  function Todas(cb: SaldosIniciales.PorSeccion): seq<(string, real)> {
    TodasDesde(cb, 0)
  }

  /** An entry is listed exactly when it is an account of one of the four
      sections, with that section's balance, without "inversiones". */
  lemma {:induction false} TodasDesdeEs(cb: SaldosIniciales.PorSeccion, k: nat, e: (string, real))
    requires k <= |SaldosIniciales.Secciones|
    ensures e in TodasDesde(cb, k) <==>
      exists m :: k <= m < |SaldosIniciales.Secciones| && SaldosIniciales.Secciones[m] in cb && e in CuentasDe(cb[SaldosIniciales.Secciones[m]], 0)
    decreases |SaldosIniciales.Secciones| - k
  {
    if k < |SaldosIniciales.Secciones| {
      TodasDesdeEs(cb, k + 1, e);
    }
  }

  /** No listed account holds "inversiones", and each carries the balance
      of a section that has it. */
  lemma TodasSinInversiones(cb: SaldosIniciales.PorSeccion, e: (string, real))
    requires e in Todas(cb)
    ensures !Contains(Lower(e.0), "inversiones")
    ensures exists s :: s in SaldosIniciales.Secciones && s in cb && PyDict.Get(cb[s], e.0) == Some(e.1)
  {
    TodasDesdeEs(cb, 0, e);
    var m :| 0 <= m < |SaldosIniciales.Secciones| && SaldosIniciales.Secciones[m] in cb && e in CuentasDe(cb[SaldosIniciales.Secciones[m]], 0);
    CuentasDeSolo(cb[SaldosIniciales.Secciones[m]], 0, e);
  }

  /** Every account of the four sections without "inversiones" is listed. */
  lemma TodasCompletas(cb: SaldosIniciales.PorSeccion, s: string, j: nat)
    requires s in SaldosIniciales.Secciones && s in cb && j < |cb[s]|
    requires !Contains(Lower(cb[s][j].0), "inversiones")
    ensures PyDict.HasKey(cb[s], cb[s][j].0) && (cb[s][j].0, PyDict.Get(cb[s], cb[s][j].0).value) in Todas(cb)
  {
    CuentasDeTodas(cb[s], 0, j);
    var m :| 0 <= m < |SaldosIniciales.Secciones| && SaldosIniciales.Secciones[m] == s;
    TodasDesdeEs(cb, 0, (cb[s][j].0, PyDict.Get(cb[s], cb[s][j].0).value));
  }

  /** `filas_disponibles` from row `i`: the rows up to 34 whose account
      cell is empty. */
  function Libres(rows: Rows, col: int, i: int): (n: nat)
    ensures i <= 35 ==> n <= 35 - i
    decreases 35 - i
  {
    if i >= 35 then 0
    else (if CellOf(rows, i, col).None? then 1 else 0) + Libres(rows, col, i + 1)
  }

  // ------------------------------------------------------------- template

  /** What row 34 holds in a column: a formula (a text starting with '='
      and longer than one character, as the cell type 'f' says) or a
      value. */
  datatype Entrada = Formula(f: string) | Valor(v: Value)

  function EntradaDe(v: Value): Entrada {
    if v.Str? && |v.s| > 1 && v.s[0] == '=' then Formula(v.s) else Valor(v)
  }

  /** `formulas_y_valores` after columns 1 to `hasta - 1`. */
  function PlantillaHasta(rows: Rows, hasta: int): map<int, Entrada> {
    map c | 1 <= c < hasta && CellOf(rows, FilaPlantilla, c).Some? :: EntradaDe(CellOf(rows, FilaPlantilla, c).value)
  }

  /** The capture loop over the template row. */
  method CapturarPlantilla(sheet: Sheet) returns (plantilla: map<int, Entrada>)
    ensures plantilla == PlantillaHasta(sheet.rows, sheet.maxColumn + 1)
  {
    plantilla := map[];
    for c := 1 to sheet.maxColumn + 1
      invariant plantilla == PlantillaHasta(sheet.rows, c)
    {
      var v := CellOf(sheet.rows, FilaPlantilla, c);
      if v.Some? {
        plantilla := plantilla[c := EntradaDe(v.value)];
      }
      assert plantilla == PlantillaHasta(sheet.rows, c + 1);
    }
  }

  /** A template cell copied to row `dest`: a formula is adjusted from row 34
      to `dest` by `AjustarFormula`, as written; a value is copied except
      into the three data columns. */
  function CopiarCelda(st: State, plantilla: map<int, Entrada>, dest: int, col: int, cols: Columnas): (w: State)
    requires dest >= 1 && col >= 1
    ensures col <= st.maxColumn ==> w.maxColumn == st.maxColumn
  {
    if col !in plantilla then st
    else match plantilla[col]
      case Formula(f) => Write(st, dest, col, SaldosInicialesFormula.AjustarFormula(Str(f), FilaPlantilla, dest))
      case Valor(v) =>
        if col != cols.cuenta && col != cols.final && col != cols.inicial then Write(st, dest, col, v) else st
  }

  /** What a copied cell of row `dest` holds, given what it held. */
  function CeldaCopiada(plantilla: map<int, Entrada>, dest: int, col: int, cols: Columnas, antes: Option<Value>): Option<Value> {
    if col !in plantilla then antes
    else match plantilla[col]
      case Formula(f) => Some(SaldosInicialesFormula.AjustarFormula(Str(f), FilaPlantilla, dest))
      case Valor(v) => if col != cols.cuenta && col != cols.final && col != cols.inicial then Some(v) else antes
  }

  /** As written, a template formula whose row is held with '$', such as
      "=D$34", reaches a copied row `dest` referring to row `dest`. */
  lemma CopiaAbsolutaDesplazada(plantilla: map<int, Entrada>, dest: nat, col: int, cols: Columnas, antes: Option<Value>, letras: string)
    requires letras != [] && forall i :: 0 <= i < |letras| ==> 'A' <= letras[i] <= 'Z'
    requires col in plantilla && plantilla[col] == Formula("=" + (letras + "$" + NatToString(FilaPlantilla)))
    ensures CeldaCopiada(plantilla, dest, col, cols, antes) == Some(Str("=" + (letras + "$" + NatToString(dest))))
  {
    SaldosInicialesFormula.AbsolutaComoEscrita(letras, FilaPlantilla, dest);
  }

  /** Columns `col` to `maxc` of row `dest`. */
  function CopiarFila(st: State, plantilla: map<int, Entrada>, dest: int, col: int, maxc: int, cols: Columnas): (w: State)
    requires dest >= 1 && col >= 1 && maxc <= st.maxColumn
    ensures w.maxColumn == st.maxColumn
    decreases maxc + 1 - col
  {
    if col > maxc then st
    else CopiarFila(CopiarCelda(st, plantilla, dest, col, cols), plantilla, dest, col + 1, maxc, cols)
  }

  /** New rows `35 + i` to `35 + extra - 1`, each over columns 1 to
      `max_column`. */
  function CopiarFilas(st: State, plantilla: map<int, Entrada>, i: nat, extra: nat, cols: Columnas): (w: State)
    ensures w.maxColumn == st.maxColumn
    decreases extra - i
  {
    if i >= extra then st
    else CopiarFilas(CopiarFila(st, plantilla, 35 + i, 1, st.maxColumn, cols), plantilla, i + 1, extra, cols)
  }

  lemma {:induction false} CopiarFilaCelda(st: State, plantilla: map<int, Entrada>, dest: int, col: int, maxc: int, cols: Columnas, r: int, c: int)
    requires dest >= 1 && col >= 1 && maxc <= st.maxColumn
    ensures CellOf(CopiarFila(st, plantilla, dest, col, maxc, cols).rows, r, c) ==
      if r == dest && col <= c <= maxc then CeldaCopiada(plantilla, dest, c, cols, CellOf(st.rows, r, c)) else CellOf(st.rows, r, c)
    decreases maxc + 1 - col
  {
    if col <= maxc {
      CopiarFilaCelda(CopiarCelda(st, plantilla, dest, col, cols), plantilla, dest, col + 1, maxc, cols, r, c);
    }
  }

  /** The new rows get the template as `CeldaCopiada` says, in columns 1 to
      `max_column`; every other cell is unchanged. */
  lemma {:induction false} CopiarFilasCelda(st: State, plantilla: map<int, Entrada>, i: nat, extra: nat, cols: Columnas, r: int, c: int)
    ensures CellOf(CopiarFilas(st, plantilla, i, extra, cols).rows, r, c) ==
      if 35 + i <= r < 35 + extra && 1 <= c <= st.maxColumn then CeldaCopiada(plantilla, r, c, cols, CellOf(st.rows, r, c))
      else CellOf(st.rows, r, c)
    decreases extra - i
  {
    if i < extra {
      var st1 := CopiarFila(st, plantilla, 35 + i, 1, st.maxColumn, cols);
      CopiarFilasCelda(st1, plantilla, i + 1, extra, cols, r, c);
      CopiarFilaCelda(st, plantilla, 35 + i, 1, st.maxColumn, cols, r, c);
    }
  }

  /** The rows inserted after the template row and filled from it. */
  function Preparar(st: State, extra: nat, cols: Columnas): State {
    CopiarFilas(InsertMany(st, 35, extra), PlantillaHasta(st.rows, st.maxColumn + 1), 0, extra, cols)
  }

  /** Rows up to the template row keep their cells; the new rows hold the
      copied template; the rows below are the old ones moved down. */
  lemma PrepararCelda(st: State, extra: nat, cols: Columnas, r: int, c: int)
    ensures CellOf(Preparar(st, extra, cols).rows, r, c) ==
      if r < 35 then CellOf(st.rows, r, c)
      else if r < 35 + extra then
        (if 1 <= c <= st.maxColumn then CeldaCopiada(PlantillaHasta(st.rows, st.maxColumn + 1), r, c, cols, None) else None)
      else CellOf(st.rows, r - extra, c)
  {
    CopiarFilasCelda(InsertMany(st, 35, extra), PlantillaHasta(st.rows, st.maxColumn + 1), 0, extra, cols, r, c);
    InsertManyCell(st, 35, extra, r, c);
  }

  // ---------------------------------------------------------------- data

  /** One account's row: its name, its final balance, and its initial
      balance when it has one. */
  function FilaDatos(st: State, fila: int, e: (string, real), cols: Columnas, saldos: PyDict.Dict<string, real>): State
    requires fila >= 1 && Validas(cols)
  {
    var st1 := Write(Write(st, fila, cols.cuenta, Str(e.0)), fila, cols.final, Num(e.1));
    var s := PyDict.Get(saldos, e.0);
    if s.Some? then Write(st1, fila, cols.inicial, Num(s.value)) else st1
  }

  /** The accounts from the `k`-th on, at rows `29 + k` on, up to 100. */
  function EscribirDatos(st: State, cuentas: seq<(string, real)>, k: nat, cols: Columnas, saldos: PyDict.Dict<string, real>): State
    requires Validas(cols)
    decreases |cuentas| - k
  {
    if k >= |cuentas| || k >= MaximoCuentas then st
    else EscribirDatos(FilaDatos(st, FilaInicial + k, cuentas[k], cols, saldos), cuentas, k + 1, cols, saldos)
  }

  /** The number of accounts written: at most 100. */
  function Escritas(n: nat): nat {
    if n < MaximoCuentas then n else MaximoCuentas
  }

  /** What a cell holds after the data phase: in the row of account `k`
      (below the limit of 100), the initial balance when there is one, else
      the final balance, else the name, in this order since a later write
      wins where columns coincide; any other cell as before. */
  function CeldaDato(st: State, cuentas: seq<(string, real)>, cols: Columnas, saldos: PyDict.Dict<string, real>, r: int, c: int): Option<Value> {
    if FilaInicial <= r < FilaInicial + Escritas(|cuentas|) then
      var e := cuentas[r - FilaInicial];
      if c == cols.inicial && PyDict.Get(saldos, e.0).Some? then Some(Num(PyDict.Get(saldos, e.0).value))
      else if c == cols.final then Some(Num(e.1))
      else if c == cols.cuenta then Some(Str(e.0))
      else CellOf(st.rows, r, c)
    else CellOf(st.rows, r, c)
  }

  lemma {:induction false} EscribirDatosCelda(st: State, cuentas: seq<(string, real)>, k: nat, cols: Columnas,
                                              saldos: PyDict.Dict<string, real>, r: int, c: int)
    requires Validas(cols) && k <= |cuentas|
    ensures CellOf(EscribirDatos(st, cuentas, k, cols, saldos).rows, r, c) ==
      if FilaInicial + k <= r then CeldaDato(st, cuentas, cols, saldos, r, c) else CellOf(st.rows, r, c)
    decreases |cuentas| - k
  {
    if k < |cuentas| && k < MaximoCuentas {
      var st1 := FilaDatos(st, FilaInicial + k, cuentas[k], cols, saldos);
      EscribirDatosCelda(st1, cuentas, k + 1, cols, saldos, r, c);
      if r != FilaInicial + k {
        assert CellOf(st1.rows, r, c) == CellOf(st.rows, r, c);
      }
    }
  }

  // ---------------------------------------------------------------- all

  /** The state the data phase starts from: the sheet itself, or the sheet
      with the missing rows inserted and filled from the template. */
  function AntesDeDatos(st: State, cols: Columnas, n: nat): State {
    var libres := Libres(st.rows, cols.cuenta, FilaInicial);
    if n > libres then Preparar(st, n - libres, cols) else st
  }

  /** The sheet after `insertar_datos_en_hoja`. */
  function InsertarDatos(st: State, cb: SaldosIniciales.PorSeccion, saldos: PyDict.Dict<string, real>): State {
    InsertarEn(st, Ubicar(st), Todas(cb), saldos)
  }

  /** The same once the columns and the accounts are known. */
  function InsertarEn(st: State, u: Option<Columnas>, todas: seq<(string, real)>, saldos: PyDict.Dict<string, real>): State
    requires u.Some? ==> Validas(u.value)
  {
    if u.None? || todas == [] then st
    else EscribirDatos(AntesDeDatos(st, u.value, |todas|), todas, 0, u.value, saldos)
  }

  /** Without the table, its header row or one of the three columns, or
      without accounts, the sheet is unchanged. */
  lemma SinTabla(st: State, cb: SaldosIniciales.PorSeccion, saldos: PyDict.Dict<string, real>)
    requires Ubicar(st).None? || Todas(cb) == []
    ensures InsertarDatos(st, cb, saldos) == st
  {
  }

  /** Account `k` (one of the first 100) is written at row `29 + k`, when the
      three columns differ. */
  lemma DatosEnFila(st: State, cuentas: seq<(string, real)>, cols: Columnas, saldos: PyDict.Dict<string, real>, k: nat)
    requires Validas(cols) && k < |cuentas| && k < MaximoCuentas
    requires cols.cuenta != cols.final && cols.cuenta != cols.inicial && cols.final != cols.inicial
    ensures var w := EscribirDatos(st, cuentas, 0, cols, saldos);
            && CellOf(w.rows, FilaInicial + k, cols.cuenta) == Some(Str(cuentas[k].0))
            && CellOf(w.rows, FilaInicial + k, cols.final) == Some(Num(cuentas[k].1))
            && (PyDict.Get(saldos, cuentas[k].0).Some? ==>
                  CellOf(w.rows, FilaInicial + k, cols.inicial) == Some(Num(PyDict.Get(saldos, cuentas[k].0).value)))
  {
    EscribirDatosCelda(st, cuentas, 0, cols, saldos, FilaInicial + k, cols.cuenta);
    EscribirDatosCelda(st, cuentas, 0, cols, saldos, FilaInicial + k, cols.final);
    EscribirDatosCelda(st, cuentas, 0, cols, saldos, FilaInicial + k, cols.inicial);
  }

  /** Account `k` of the balance (one of the first 100) is at row `29 + k`:
      its name in the account column, its final balance in the final column,
      and its initial balance, when it has one, in the initial column,
      provided the three columns differ. */
  lemma CuentaEnFila(st: State, cb: SaldosIniciales.PorSeccion, saldos: PyDict.Dict<string, real>, k: nat)
    requires Ubicar(st).Some? && k < |Todas(cb)| && k < MaximoCuentas
    requires var cols := Ubicar(st).value; cols.cuenta != cols.final && cols.cuenta != cols.inicial && cols.final != cols.inicial
    ensures var cols := Ubicar(st).value;
            var w := InsertarDatos(st, cb, saldos);
            var e := Todas(cb)[k];
            && CellOf(w.rows, FilaInicial + k, cols.cuenta) == Some(Str(e.0))
            && CellOf(w.rows, FilaInicial + k, cols.final) == Some(Num(e.1))
            && (PyDict.Get(saldos, e.0).Some? ==> CellOf(w.rows, FilaInicial + k, cols.inicial) == Some(Num(PyDict.Get(saldos, e.0).value)))
  {
    var todas := Todas(cb);
    var cols := Ubicar(st).value;
    DatosEnFila(AntesDeDatos(st, cols, |todas|), todas, cols, saldos, k);
  }

  /** The rows above the data, 1 to 28, are never changed. */
  lemma FilasSuperiores(st: State, cb: SaldosIniciales.PorSeccion, saldos: PyDict.Dict<string, real>, r: int, c: int)
    requires r < FilaInicial
    ensures CellOf(InsertarDatos(st, cb, saldos).rows, r, c) == CellOf(st.rows, r, c)
  {
    FilasSuperioresEn(st, Ubicar(st), Todas(cb), saldos, r, c);
  }

  lemma FilasSuperioresEn(st: State, u: Option<Columnas>, todas: seq<(string, real)>, saldos: PyDict.Dict<string, real>, r: int, c: int)
    requires u.Some? ==> Validas(u.value)
    requires r < FilaInicial
    ensures CellOf(InsertarEn(st, u, todas, saldos).rows, r, c) == CellOf(st.rows, r, c)
  {
    if u.Some? && todas != [] {
      var cols := u.value;
      var st1 := AntesDeDatos(st, cols, |todas|);
      EscribirDatosCelda(st1, todas, 0, cols, saldos, r, c);
      var libres := Libres(st.rows, cols.cuenta, FilaInicial);
      if |todas| > libres {
        PrepararCelda(st, |todas| - libres, cols, r, c);
      }
    }
  }

  /** Rows are inserted only when the accounts outnumber the empty account
      cells of rows 29 to 34, and then exactly as many as are missing. */
  lemma FilasInsertadas(st: State, cb: SaldosIniciales.PorSeccion, saldos: PyDict.Dict<string, real>)
    requires Ubicar(st).Some? && Todas(cb) != []
    ensures var libres := Libres(st.rows, Ubicar(st).value.cuenta, FilaInicial);
            && libres <= 6
            && (|Todas(cb)| <= libres ==> InsertarDatos(st, cb, saldos) == EscribirDatos(st, Todas(cb), 0, Ubicar(st).value, saldos))
            && (|Todas(cb)| > libres ==>
                  InsertarDatos(st, cb, saldos) == EscribirDatos(Preparar(st, |Todas(cb)| - libres, Ubicar(st).value), Todas(cb), 0, Ubicar(st).value, saldos))
  {
  }

  // -------------------------------------------------------------- methods

  /** The body of the copy loop for row `dest`, column `col`. */
  method CopiarCeldaEn(sheet: Sheet, plantilla: map<int, Entrada>, dest: int, col: int, cols: Columnas)
    requires dest >= 1 && col >= 1
    modifies sheet
    ensures sheet.View() == CopiarCelda(old(sheet.View()), plantilla, dest, col, cols)
  {
    if col in plantilla {
      match plantilla[col]
      case Formula(f) =>
        var ajustada := SaldosInicialesFormula.AjustarFormula(Str(f), FilaPlantilla, dest);
        sheet.Set(dest, col, ajustada);
      case Valor(v) =>
        if col != cols.cuenta && col != cols.final && col != cols.inicial {
          sheet.Set(dest, col, v);
        }
    }
  }

  /** The inner copy loop: columns 1 to `max_column` of row `dest`. */
  method CopiarFilaEn(sheet: Sheet, plantilla: map<int, Entrada>, dest: int, cols: Columnas)
    requires dest >= 1
    modifies sheet
    ensures sheet.View() == CopiarFila(old(sheet.View()), plantilla, dest, 1, old(sheet.maxColumn), cols)
  {
    ghost var inicio := sheet.View();
    var maxc := sheet.maxColumn;
    for col := 1 to maxc + 1
      invariant sheet.maxColumn == maxc
      invariant CopiarFila(sheet.View(), plantilla, dest, col, maxc, cols) == CopiarFila(inicio, plantilla, dest, 1, maxc, cols)
    {
      CopiarCeldaEn(sheet, plantilla, dest, col, cols);
    }
  }

  /** The outer copy loop over the `extra` new rows. */
  method CopiarFilasEn(sheet: Sheet, plantilla: map<int, Entrada>, extra: nat, cols: Columnas)
    modifies sheet
    ensures sheet.View() == CopiarFilas(old(sheet.View()), plantilla, 0, extra, cols)
  {
    for i := 0 to extra
      invariant CopiarFilas(sheet.View(), plantilla, i, extra, cols) == CopiarFilas(old(sheet.View()), plantilla, 0, extra, cols)
    {
      CopiarFilaEn(sheet, plantilla, 35 + i, cols);
    }
  }

  /** The data loop: one row per account from row 29, stopping after 100. */
  method EscribirDatosEn(sheet: Sheet, todas: seq<(string, real)>, cols: Columnas, saldos: PyDict.Dict<string, real>)
    requires Validas(cols)
    modifies sheet
    ensures sheet.View() == EscribirDatos(old(sheet.View()), todas, 0, cols, saldos)
  {
    var fila := FilaInicial;
    for k := 0 to |todas|
      invariant fila == FilaInicial + k
      invariant EscribirDatos(sheet.View(), todas, k, cols, saldos) == EscribirDatos(old(sheet.View()), todas, 0, cols, saldos)
    {
      if k >= MaximoCuentas {
        break;
      }
      var (cuenta, valor) := todas[k];
      sheet.Set(fila, cols.cuenta, Str(cuenta));
      sheet.Set(fila, cols.final, Num(valor));
      var s := PyDict.Get(saldos, cuenta);
      if s.Some? {
        sheet.Set(fila, cols.inicial, Num(s.value));
      }
      fila := fila + 1;
    }
  }

  /** The searches for the table, its header row and the three columns. */
  method UbicarEn(sheet: Sheet) returns (u: Option<Columnas>)
    ensures u == Ubicar(sheet.View())
  {
    var filaTabla := SumariaTabla.BuscarFila(sheet, 1, 50, EsTablaSaldos);
    if filaTabla.None? {
      return None;
    }
    var filaEncabezados := SumariaTabla.BuscarFila(sheet, filaTabla.value, filaTabla.value + 5, MencionaCuenta);
    if filaEncabezados.None? {
      return None;
    }
    var colCuenta := EncontrarColumnaPorTexto(sheet, filaEncabezados.value, TextosCuenta);
    var colFinal := EncontrarColumnaPorTexto(sheet, filaEncabezados.value, TextosFinal);
    var colInicial := EncontrarColumnaPorTexto(sheet, filaEncabezados.value, TextosInicial);
    if colCuenta.None? || colInicial.None? || colFinal.None? {
      return None;
    }
    return Some(Columnas(colCuenta.value, colFinal.value, colInicial.value));
  }

  /** `insertar_datos_en_hoja(sheet, ..., cuentas_balance, cuentas_saldos_iniciales, ...)` */
  method InsertarDatosEnHoja(sheet: Sheet, cb: SaldosIniciales.PorSeccion, saldos: PyDict.Dict<string, real>)
    modifies sheet
    ensures sheet.View() == InsertarDatos(old(sheet.View()), cb, saldos)
  {
    var u := UbicarEn(sheet);
    var todas := Todas(cb);
    InsertarConEn(sheet, u, todas, saldos);
  }

  /** The rest of `insertar_datos_en_hoja` once the columns are found. */
  method InsertarConEn(sheet: Sheet, u: Option<Columnas>, todas: seq<(string, real)>, saldos: PyDict.Dict<string, real>)
    requires u.Some? ==> Validas(u.value)
    modifies sheet
    ensures sheet.View() == InsertarEn(old(sheet.View()), u, todas, saldos)
  {
    if u.None? || todas == [] {
      return;
    }
    var cols := u.value;
    var libres := Libres(sheet.rows, cols.cuenta, FilaInicial);
    var extra := if |todas| > libres then |todas| - libres else 0;
    if extra > 0 {
      var plantilla := CapturarPlantilla(sheet);
      sheet.InsertRowsAmount(35, extra);
      CopiarFilasEn(sheet, plantilla, extra, cols);
    }
    EscribirDatosEn(sheet, todas, cols, saldos);
  }
}
