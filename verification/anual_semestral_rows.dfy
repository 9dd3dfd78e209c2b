/** Writing the classified accounts into an annual or semi-annual sheet
    (auditoria/processors/excel/processor_anual_semestral/row_inserter.py).
    Each operation is a method on the sheet, specified by a function from
    the sheet's state before to its state after. Styles are not modelled. */
module AnualSemestralRows {
  import opened Wrappers
  import PyDict
  import opened Worksheet
  import opened AnualSemestral

  // ------------------------------------------------------------ one cell

  /** `_insertar_valor_celda`: the amount of the key, when the key exists. */
  function ValueCell(st: State, fila: int, col: int, key: string, balances: Balances): (w: State)
    requires fila >= 1 && col >= 1
    ensures PyDict.HasKey(balances, key) ==> CellOf(w.rows, fila, col) == Some(Num(PyDict.Get(balances, key).value))
    ensures !PyDict.HasKey(balances, key) ==> w == st
    ensures forall r, c {:trigger CellOf(w.rows, r, c)} :: r != fila || c != col ==> CellOf(w.rows, r, c) == CellOf(st.rows, r, c)
    ensures w.maxColumn == if PyDict.HasKey(balances, key) && col > st.maxColumn then col else st.maxColumn
  {
    match PyDict.Get(balances, key)
    case Some(v) => Write(st, fila, col, Num(v))
    case None => st
  }

  method InsertarValorCelda(sheet: Sheet, fila: int, col: int, tipo: string, fecha: string,
                            seccion: string, cuenta: string, balances: Balances)
    requires fila >= 1 && col >= 1
    modifies sheet
    ensures sheet.View() == ValueCell(old(sheet.View()), fila, col, CellKey(tipo, fecha, seccion, cuenta), balances)
  {
    var clave := CellKey(tipo, fecha, seccion, cuenta);
    var v := PyDict.Get(balances, clave);
    if v.Some? {
      sheet.Set(fila, col, Num(v.value));
    }
  }

  // ------------------------------------------------------- one row of values

  /** The SEMESTRAL loop from date `i` on: date `i` goes to column 3 + i
      while that column is within `max_column`. */
  function SemestralFrom(st: State, fila: int, tipo: string, fechas: seq<string>, i: nat,
                         seccion: string, cuenta: string, balances: Balances): (w: State)
    requires fila >= 1 && i <= |fechas|
    ensures w.maxColumn == st.maxColumn
    ensures forall r, c {:trigger CellOf(w.rows, r, c)} ::
      CellOf(w.rows, r, c) ==
      (if r == fila && 3 + i <= c <= st.maxColumn && c < 3 + |fechas| &&
          PyDict.HasKey(balances, CellKey(tipo, fechas[c - 3], seccion, cuenta))
       then Some(Num(PyDict.Get(balances, CellKey(tipo, fechas[c - 3], seccion, cuenta)).value))
       else CellOf(st.rows, r, c))
    decreases |fechas| - i
  {
    if i == |fechas| then st
    else
      var st1 := if 3 + i <= st.maxColumn then ValueCell(st, fila, 3 + i, CellKey(tipo, fechas[i], seccion, cuenta), balances) else st;
      SemestralFrom(st1, fila, tipo, fechas, i + 1, seccion, cuenta, balances)
  }

  /** The column a date goes to: ANUAL puts the latest date in column 3 and
      the one before in column 4; SEMESTRAL puts date `i` in column 3 + i. */
  predicate WritesColumn(tipo: string, fechas: seq<string>, maxColumn: int, c: int) {
    if tipo == "ANUAL" then 3 <= c < 3 + |ColumnasValores(tipo, |fechas|)|
    else if tipo == "SEMESTRAL" then 3 <= c < 3 + |fechas| && c <= maxColumn
    else false
  }

  /** The date whose amount goes to column `c`. */
  function DateOfColumn(tipo: string, fechas: seq<string>, c: int): string
    requires 3 <= c < 3 + |fechas|
  {
    if tipo == "ANUAL" then fechas[|fechas| - 1 - (c - 3)] else fechas[c - 3]
  }

  /** `_insertar_valores_fila` on a sheet state. */
  function RowValues(st: State, fila: int, tipo: string, fechas: seq<string>,
                     seccion: string, cuenta: string, balances: Balances): (w: State)
    requires fila >= 1
  {
    if tipo == "ANUAL" && |fechas| > 0 then
      var st1 := ValueCell(st, fila, 3, CellKey(tipo, fechas[|fechas| - 1], seccion, cuenta), balances);
      if |fechas| > 1 then ValueCell(st1, fila, 4, CellKey(tipo, fechas[|fechas| - 2], seccion, cuenta), balances) else st1
    else if tipo == "SEMESTRAL" then SemestralFrom(st, fila, tipo, fechas, 0, seccion, cuenta, balances)
    else st
  }

  /** The cells of a row of values: a value column of the row gets the
      amount of its date's key when that key exists in the balances, and
      every other cell keeps what it held. */
  lemma RowValuesCells(st: State, fila: int, tipo: string, fechas: seq<string>,
                       seccion: string, cuenta: string, balances: Balances, r: int, c: int)
    requires fila >= 1
    ensures CellOf(RowValues(st, fila, tipo, fechas, seccion, cuenta, balances).rows, r, c) ==
      if r == fila && WritesColumn(tipo, fechas, st.maxColumn, c) &&
         PyDict.HasKey(balances, CellKey(tipo, DateOfColumn(tipo, fechas, c), seccion, cuenta))
      then Some(Num(PyDict.Get(balances, CellKey(tipo, DateOfColumn(tipo, fechas, c), seccion, cuenta)).value))
      else CellOf(st.rows, r, c)
  {
  }

  /** Writing a row of values only ever raises `max_column` to a value
      column of the row. */
  lemma RowValuesMaxColumn(st: State, fila: int, tipo: string, fechas: seq<string>,
                           seccion: string, cuenta: string, balances: Balances)
    requires fila >= 1
    ensures var w := RowValues(st, fila, tipo, fechas, seccion, cuenta, balances);
      w.maxColumn == st.maxColumn || (tipo == "ANUAL" && 3 <= w.maxColumn <= 4)
  {
  }

  method InsertarValoresFila(sheet: Sheet, fila: int, tipo: string, fechas: seq<string>,
                             seccion: string, cuenta: string, balances: Balances)
    requires fila >= 1
    modifies sheet
    ensures sheet.View() == RowValues(old(sheet.View()), fila, tipo, fechas, seccion, cuenta, balances)
  {
    if tipo == "ANUAL" && |fechas| > 0 {
      InsertarValorCelda(sheet, fila, 3, tipo, fechas[|fechas| - 1], seccion, cuenta, balances);
      if |fechas| > 1 {
        InsertarValorCelda(sheet, fila, 4, tipo, fechas[|fechas| - 2], seccion, cuenta, balances);
      }
    } else if tipo == "SEMESTRAL" {
      for i := 0 to |fechas|
        invariant SemestralFrom(sheet.View(), fila, tipo, fechas, i, seccion, cuenta, balances) ==
                  RowValues(old(sheet.View()), fila, tipo, fechas, seccion, cuenta, balances)
      {
        if 3 + i <= sheet.maxColumn {
          InsertarValorCelda(sheet, fila, 3 + i, tipo, fechas[i], seccion, cuenta, balances);
        }
      }
    }
  }

  // ------------------------------------------------------------ a section

  /** Where a section's insertion ends: the sheet, the next free row, the
      (possibly moved) limit row and the row to copy styles from. */
  datatype Placement = Placement(st: State, next: int, limit: int, style: int)

  /** One account of a section: a row is inserted first when the current
      row has reached the limit, which moves the limit down by one. */
  function SectionStep(st: State, seccion: string, cuenta: string, tipo: string, fechas: seq<string>,
                       balances: Balances, fila: int, limite: int): (p: Placement)
    requires fila >= 1
    ensures p.next == fila + 1 && p.style == fila
    ensures p.limit == if fila >= limite then limite + 1 else limite
  {
    var st1 := if fila >= limite then Insert(st, fila) else st;
    var lim := if fila >= limite then limite + 1 else limite;
    var st2 := Write(st1, fila, 2, Str(cuenta));
    Placement(RowValues(st2, fila, tipo, fechas, seccion, cuenta, balances), fila + 1, lim, fila)
  }

  /** `_insertar_seccion_cuentas` on a sheet state. */
  function Section(st: State, seccion: string, cuentas: seq<string>, tipo: string, fechas: seq<string>,
                   balances: Balances, fila: int, limite: int, estilo: int): (p: Placement)
    requires fila >= 1
    ensures p.next == fila + |cuentas|
    ensures p.limit >= limite
    ensures fila <= limite ==> p.limit == if limite >= fila + |cuentas| then limite else fila + |cuentas|
    decreases |cuentas|
  {
    if cuentas == [] then Placement(st, fila, limite, estilo)
    else
      var p := SectionStep(st, seccion, cuentas[0], tipo, fechas, balances, fila, limite);
      Section(p.st, seccion, cuentas[1..], tipo, fechas, balances, p.next, p.limit, p.style)
  }

  /** A non-empty section is its first step followed by the rest. */
  lemma SectionUnfold(st: State, seccion: string, cuentas: seq<string>, tipo: string, fechas: seq<string>,
                      balances: Balances, fila: int, limite: int, estilo: int)
    requires fila >= 1 && cuentas != []
    ensures var p := SectionStep(st, seccion, cuentas[0], tipo, fechas, balances, fila, limite);
      Section(st, seccion, cuentas, tipo, fechas, balances, fila, limite, estilo) ==
      Section(p.st, seccion, cuentas[1..], tipo, fechas, balances, p.next, p.limit, p.style)
  {
  }

  /** The body of the section loop for one account. */
  method InsertarCuenta(sheet: Sheet, seccion: string, cuenta: string, tipo: string, fechas: seq<string>,
                        balances: Balances, fila: int, limite: int) returns (limit: int)
    requires fila >= 1
    modifies sheet
    ensures var p := SectionStep(old(sheet.View()), seccion, cuenta, tipo, fechas, balances, fila, limite);
      sheet.View() == p.st && limit == p.limit
  {
    limit := limite;
    if fila >= limit {
      sheet.InsertRows(fila);
      limit := limit + 1;
    }
    sheet.Set(fila, 2, Str(cuenta));
    InsertarValoresFila(sheet, fila, tipo, fechas, seccion, cuenta, balances);
  }

  method InsertarSeccionCuentas(sheet: Sheet, seccion: string, cuentas: seq<string>, tipo: string,
                                fechas: seq<string>, balances: Balances, inicio: int, limite: int, estilo: int)
    returns (next: int, limit: int, style: int)
    requires inicio >= 1
    modifies sheet
    ensures Placement(sheet.View(), next, limit, style) ==
            Section(old(sheet.View()), seccion, cuentas, tipo, fechas, balances, inicio, limite, estilo)
  {
    next, limit, style := inicio, limite, estilo;
    ghost var goal := Section(sheet.View(), seccion, cuentas, tipo, fechas, balances, inicio, limite, estilo);
    for i := 0 to |cuentas|
      invariant next >= 1
      invariant Section(sheet.View(), seccion, cuentas[i..], tipo, fechas, balances, next, limit, style) == goal
    {
      ghost var rest := cuentas[i..];
      assert rest[1..] == cuentas[i + 1..];
      SectionUnfold(sheet.View(), seccion, rest, tipo, fechas, balances, next, limit, style);
      limit := InsertarCuenta(sheet, seccion, cuentas[i], tipo, fechas, balances, next, limit);
      style := next;
      next := next + 1;
    }
  }

  /** One step of a section leaves every row above the current one as it was. */
  lemma SectionStepKeepsAbove(st: State, seccion: string, cuenta: string, tipo: string, fechas: seq<string>,
                              balances: Balances, fila: int, limite: int, r: int, c: int)
    requires fila >= 1 && r < fila
    ensures CellOf(SectionStep(st, seccion, cuenta, tipo, fechas, balances, fila, limite).st.rows, r, c) == CellOf(st.rows, r, c)
  {
    var st1 := if fila >= limite then Insert(st, fila) else st;
    var st2 := Write(st1, fila, 2, Str(cuenta));
    RowValuesCells(st2, fila, tipo, fechas, seccion, cuenta, balances, r, c);
  }

  /** A section leaves every row above its first row as it was. */
  lemma {:induction false} SectionKeepsAbove(st: State, seccion: string, cuentas: seq<string>, tipo: string,
                                             fechas: seq<string>, balances: Balances, fila: int, limite: int,
                                             estilo: int, r: int, c: int)
    requires fila >= 1 && r < fila
    ensures CellOf(Section(st, seccion, cuentas, tipo, fechas, balances, fila, limite, estilo).st.rows, r, c) == CellOf(st.rows, r, c)
    decreases |cuentas|
  {
    if cuentas != [] {
      var p := SectionStep(st, seccion, cuentas[0], tipo, fechas, balances, fila, limite);
      SectionStepKeepsAbove(st, seccion, cuentas[0], tipo, fechas, balances, fila, limite, r, c);
      SectionKeepsAbove(p.st, seccion, cuentas[1..], tipo, fechas, balances, p.next, p.limit, p.style, r, c);
    }
  }

  /** The account names go to column B, in order, one per row from the
      first row on. */
  lemma {:induction false} SectionNames(st: State, seccion: string, cuentas: seq<string>, tipo: string,
                                        fechas: seq<string>, balances: Balances, fila: int, limite: int,
                                        estilo: int, k: nat)
    requires fila >= 1 && k < |cuentas|
    ensures CellOf(Section(st, seccion, cuentas, tipo, fechas, balances, fila, limite, estilo).st.rows, fila + k, 2) == Some(Str(cuentas[k]))
    decreases |cuentas|
  {
    if k == 0 {
      SectionFirstName(st, seccion, cuentas, tipo, fechas, balances, fila, limite, estilo);
    } else {
      var p := SectionStep(st, seccion, cuentas[0], tipo, fechas, balances, fila, limite);
      SectionUnfold(st, seccion, cuentas, tipo, fechas, balances, fila, limite, estilo);
      SectionNames(p.st, seccion, cuentas[1..], tipo, fechas, balances, p.next, p.limit, p.style, k - 1);
      assert cuentas[1..][k - 1] == cuentas[k];
    }
  }

  /** The first account's name lands in column B of the first row. */
  lemma SectionFirstName(st: State, seccion: string, cuentas: seq<string>, tipo: string,
                         fechas: seq<string>, balances: Balances, fila: int, limite: int, estilo: int)
    requires fila >= 1 && cuentas != []
    ensures CellOf(Section(st, seccion, cuentas, tipo, fechas, balances, fila, limite, estilo).st.rows, fila, 2) == Some(Str(cuentas[0]))
  {
    var p := SectionStep(st, seccion, cuentas[0], tipo, fechas, balances, fila, limite);
    SectionUnfold(st, seccion, cuentas, tipo, fechas, balances, fila, limite, estilo);
    var st1 := if fila >= limite then Insert(st, fila) else st;
    var st2 := Write(st1, fila, 2, Str(cuentas[0]));
    RowValuesCells(st2, fila, tipo, fechas, seccion, cuentas[0], balances, fila, 2);
    SectionKeepsAbove(p.st, seccion, cuentas[1..], tipo, fechas, balances, p.next, p.limit, p.style, fila, 2);
  }

  /** The rows from the limit on move down together by the number of rows
      the section inserted (the new limit minus the old): the total row that
      sat at the limit, and every row below it, are carried along unchanged. */
  lemma {:induction false} SectionShiftsBelow(st: State, seccion: string, cuentas: seq<string>, tipo: string,
                                              fechas: seq<string>, balances: Balances, fila: int, limite: int,
                                              estilo: int, r: int, c: int)
    requires 1 <= fila <= limite <= r
    ensures var p := Section(st, seccion, cuentas, tipo, fechas, balances, fila, limite, estilo);
      CellOf(p.st.rows, r + (p.limit - limite), c) == CellOf(st.rows, r, c)
  {
    var p := Section(st, seccion, cuentas, tipo, fechas, balances, fila, limite, estilo);
    ShiftsBelow(p, st, seccion, cuentas, tipo, fechas, balances, fila, limite, estilo, r, c);
  }

  lemma {:induction false} ShiftsBelow(p: Placement, st: State, seccion: string, cuentas: seq<string>, tipo: string,
                                       fechas: seq<string>, balances: Balances, fila: int, limite: int,
                                       estilo: int, r: int, c: int)
    requires 1 <= fila <= limite <= r
    requires p == Section(st, seccion, cuentas, tipo, fechas, balances, fila, limite, estilo)
    ensures CellOf(p.st.rows, r + (p.limit - limite), c) == CellOf(st.rows, r, c)
    decreases |cuentas|
  {
    if cuentas != [] {
      var s := SectionStep(st, seccion, cuentas[0], tipo, fechas, balances, fila, limite);
      SectionUnfold(st, seccion, cuentas, tipo, fechas, balances, fila, limite, estilo);
      var r' := r + (s.limit - limite);
      SectionStepShifts(st, seccion, cuentas[0], tipo, fechas, balances, fila, limite, r, c);
      assert CellOf(s.st.rows, r', c) == CellOf(st.rows, r, c);
      ShiftsBelow(p, s.st, seccion, cuentas[1..], tipo, fechas, balances, s.next, s.limit, s.style, r', c);
      assert r' + (p.limit - s.limit) == r + (p.limit - limite);
    } else {
      assert p.st == st && p.limit == limite;
    }
  }

  /** One step of a section moves the rows from the limit on down by the
      rows it inserted. */
  lemma SectionStepShifts(st: State, seccion: string, cuenta: string, tipo: string, fechas: seq<string>,
                          balances: Balances, fila: int, limite: int, r: int, c: int)
    requires 1 <= fila <= limite <= r
    ensures var p := SectionStep(st, seccion, cuenta, tipo, fechas, balances, fila, limite);
      CellOf(p.st.rows, r + (p.limit - limite), c) == CellOf(st.rows, r, c)
  {
    var st1 := if fila >= limite then Insert(st, fila) else st;
    var st2 := Write(st1, fila, 2, Str(cuenta));
    var r' := if fila >= limite then r + 1 else r;
    assert CellOf(st1.rows, r', c) == CellOf(st.rows, r, c);
    assert CellOf(st2.rows, r', c) == CellOf(st.rows, r, c);
    RowValuesCells(st2, fila, tipo, fechas, seccion, cuenta, balances, r', c);
  }

  // ------------------------------------------------- ESTADO DE RESULTADOS

  /** The accounts written from row `fila` on, one per row, without inserting. */
  function WriteAccounts(st: State, seccion: string, cuentas: seq<string>, tipo: string, fechas: seq<string>,
                         balances: Balances, fila: int): (w: State)
    requires fila >= 1
    ensures forall r, c {:trigger CellOf(w.rows, r, c)} :: r < fila ==> CellOf(w.rows, r, c) == CellOf(st.rows, r, c)
    decreases |cuentas|
  {
    if cuentas == [] then st
    else WriteAccounts(AccountRow(st, seccion, cuentas[0], tipo, fechas, balances, fila), seccion, cuentas[1..], tipo, fechas, balances, fila + 1)
  }

  /** One account's row: its name in column B, then its values. */
  function AccountRow(st: State, seccion: string, cuenta: string, tipo: string, fechas: seq<string>,
                      balances: Balances, fila: int): (w: State)
    requires fila >= 1
    ensures forall r, c {:trigger CellOf(w.rows, r, c)} :: r < fila ==> CellOf(w.rows, r, c) == CellOf(st.rows, r, c)
  {
    var w := RowValues(Write(st, fila, 2, Str(cuenta)), fila, tipo, fechas, seccion, cuenta, balances);
    assert forall r, c :: r < fila ==> CellOf(w.rows, r, c) == CellOf(st.rows, r, c) by {
      forall r, c | r < fila ensures CellOf(w.rows, r, c) == CellOf(st.rows, r, c) {
        RowValuesCells(Write(st, fila, 2, Str(cuenta)), fila, tipo, fechas, seccion, cuenta, balances, r, c);
      }
    }
    w
  }

  lemma WriteAccountsUnfold(st: State, seccion: string, cuentas: seq<string>, tipo: string, fechas: seq<string>,
                            balances: Balances, fila: int)
    requires fila >= 1 && cuentas != []
    ensures WriteAccounts(st, seccion, cuentas, tipo, fechas, balances, fila) ==
            WriteAccounts(AccountRow(st, seccion, cuentas[0], tipo, fechas, balances, fila), seccion, cuentas[1..], tipo, fechas, balances, fila + 1)
  {
  }

  const EstadoDeResultados := "ESTADO DE RESULTADOS"

  /** `_insertar_estado_resultados` on a sheet state: when fewer rows than
      accounts lie below the first row, the missing rows are inserted there
      first. */
  function Resultados(st: State, cuentas: seq<string>, tipo: string, fechas: seq<string>,
                      balances: Balances, inicio: int): (w: State)
    requires inicio >= 1
  {
    var espacio := MaxRow(st) - inicio;
    var st1 := if espacio < |cuentas| then InsertMany(st, inicio, |cuentas| - espacio) else st;
    WriteAccounts(st1, EstadoDeResultados, cuentas, tipo, fechas, balances, inicio)
  }

  /** The income-statement accounts go to column B, in order, from the first
      row on, and the rows above are untouched. */
  lemma {:induction false} ResultadosNames(st: State, cuentas: seq<string>, tipo: string, fechas: seq<string>,
                                           balances: Balances, fila: int, k: nat)
    requires fila >= 1 && k < |cuentas|
    ensures CellOf(WriteAccounts(st, EstadoDeResultados, cuentas, tipo, fechas, balances, fila).rows, fila + k, 2) == Some(Str(cuentas[k]))
    decreases |cuentas|
  {
    var st1 := AccountRow(st, EstadoDeResultados, cuentas[0], tipo, fechas, balances, fila);
    WriteAccountsUnfold(st, EstadoDeResultados, cuentas, tipo, fechas, balances, fila);
    if k == 0 {
      RowValuesCells(Write(st, fila, 2, Str(cuentas[0])), fila, tipo, fechas, EstadoDeResultados, cuentas[0], balances, fila, 2);
      assert CellOf(st1.rows, fila, 2) == Some(Str(cuentas[0]));
    } else {
      ResultadosNames(st1, cuentas[1..], tipo, fechas, balances, fila + 1, k - 1);
      assert cuentas[1..][k - 1] == cuentas[k];
    }
  }

  method InsertarEstadoResultados(sheet: Sheet, cuentas: seq<string>, tipo: string, fechas: seq<string>,
                                  balances: Balances, inicio: int)
    requires inicio >= 1
    modifies sheet
    ensures sheet.View() == Resultados(old(sheet.View()), cuentas, tipo, fechas, balances, inicio)
  {
    var espacio := MaxRow(sheet.View()) - inicio;
    if espacio < |cuentas| {
      for n := 0 to |cuentas| - espacio
        invariant sheet.View() == InsertMany(old(sheet.View()), inicio, n)
      {
        sheet.InsertRows(inicio);
      }
    }
    ghost var goal := WriteAccounts(sheet.View(), EstadoDeResultados, cuentas, tipo, fechas, balances, inicio);
    assert goal == Resultados(old(sheet.View()), cuentas, tipo, fechas, balances, inicio);
    var fila := inicio;
    for i := 0 to |cuentas|
      invariant fila >= 1
      invariant WriteAccounts(sheet.View(), EstadoDeResultados, cuentas[i..], tipo, fechas, balances, fila) == goal
    {
      ghost var rest := cuentas[i..];
      assert rest[1..] == cuentas[i + 1..];
      WriteAccountsUnfold(sheet.View(), EstadoDeResultados, rest, tipo, fechas, balances, fila);
      InsertarFilaCuenta(sheet, EstadoDeResultados, cuentas[i], tipo, fechas, balances, fila);
      fila := fila + 1;
    }
  }

  /** The body of the income-statement loop for one account. */
  method InsertarFilaCuenta(sheet: Sheet, seccion: string, cuenta: string, tipo: string, fechas: seq<string>,
                            balances: Balances, fila: int)
    requires fila >= 1
    modifies sheet
    ensures sheet.View() == AccountRow(old(sheet.View()), seccion, cuenta, tipo, fechas, balances, fila)
  {
    sheet.Set(fila, 2, Str(cuenta));
    InsertarValoresFila(sheet, fila, tipo, fechas, seccion, cuenta, balances);
  }

  // ------------------------------------------------------------ the sheet

  /** The dictionary of accounts has the four sections. */
  predicate HasSections(cuentas: map<string, seq<string>>) {
    "Activo" in cuentas && "Pasivo" in cuentas && "Patrimonio" in cuentas && EstadoDeResultados in cuentas
  }

  /** Key rows as `_buscar_filas_clave` returns them: all from row 1 on. */
  predicate PositiveRows(k: KeyRows) {
    k.balanceGeneral >= 1 && k.totalActivo >= 1 && k.totalPasivoPatrimonio >= 1
  }

  /** The assets phase: the asset accounts from the row after BALANCE
      GENERAL (of the key rows `k`), with TOTAL ACTIVO as the limit. */
  function Assets(st: State, k: KeyRows, cuentas: map<string, seq<string>>, tipo: string, fechas: seq<string>,
                  balances: Balances): Placement
    requires HasSections(cuentas) && PositiveRows(k)
  {
    Section(st, "Activo", cuentas["Activo"], tipo, fechas, balances, k.balanceGeneral + 1, k.totalActivo, k.balanceGeneral)
  }

  /** Liabilities, then equity, below TOTAL ACTIVO (at `ta`); the second
      section continues from where the first stopped. */
  function PasivoYPatrimonio(st: State, cuentas: map<string, seq<string>>, tipo: string, fechas: seq<string>,
                             balances: Balances, ta: int, tpp: int): (q: Placement)
    requires HasSections(cuentas) && ta >= 1
    ensures q.limit >= tpp
  {
    var p := Section(st, "Pasivo", cuentas["Pasivo"], tipo, fechas, balances, ta + 1, tpp, ta);
    Section(p.st, "Patrimonio", cuentas["Patrimonio"], tipo, fechas, balances, p.next, p.limit, p.next - 1)
  }

  /** The phases after the assets: liabilities and equity below TOTAL ACTIVO
      (at `ta`) down to TOTAL PASIVO Y PATRIMONIO (at `tpp`), its formula,
      then the income statement. */
  function Liabilities(st: State, cuentas: map<string, seq<string>>, tipo: string, fechas: seq<string>,
                       balances: Balances, ta: int, tpp: int): State
    requires HasSections(cuentas) && ta >= 1 && tpp >= 1
  {
    var q := PasivoYPatrimonio(st, cuentas, tipo, fechas, balances, ta, tpp);
    var st2 := SumFormulas(q.st, q.limit, ColumnasValores(tipo, |fechas|), ta + 1, q.limit - 1);
    Resultados(st2, cuentas[EstadoDeResultados], tipo, fechas, balances, q.limit + 1)
  }

  /** `insertar_cuentas_en_hoja` on a sheet state: the assets, the TOTAL
      ACTIVO formula, then the rest with TOTAL PASIVO Y PATRIMONIO moved down
      by the rows inserted for the assets. */
  function Hoja(st: State, k: KeyRows, cuentas: map<string, seq<string>>, tipo: string, fechas: seq<string>,
                balances: Balances): State
    requires HasSections(cuentas) && PositiveRows(k)
  {
    var a := AssetsWithTotal(st, k, cuentas, tipo, fechas, balances);
    Liabilities(a.st, cuentas, tipo, fechas, balances, a.limit, k.totalPasivoPatrimonio + (a.limit - k.totalActivo))
  }

  /** The assets followed by the TOTAL ACTIVO formula, which sums the rows
      between BALANCE GENERAL and the row TOTAL ACTIVO has moved to. */
  function AssetsWithTotal(st: State, k: KeyRows, cuentas: map<string, seq<string>>, tipo: string, fechas: seq<string>,
                           balances: Balances): (w: Placement)
    requires HasSections(cuentas) && PositiveRows(k)
    ensures w.limit >= k.totalActivo
  {
    var a := Assets(st, k, cuentas, tipo, fechas, balances);
    a.(st := SumFormulas(a.st, a.limit, ColumnasValores(tipo, |fechas|), k.balanceGeneral + 1, a.limit - 1))
  }

  /** Lines 22-27 of `insertar_cuentas_en_hoja`: the liabilities, then the
      equity. */
  method InsertarPasivoYPatrimonio(sheet: Sheet, cuentas: map<string, seq<string>>, tipo: string,
                                   fechas: seq<string>, balances: Balances, totalActivo: int, tpp: int)
    returns (limit: int)
    requires HasSections(cuentas) && totalActivo >= 1
    modifies sheet
    ensures var q := PasivoYPatrimonio(old(sheet.View()), cuentas, tipo, fechas, balances, totalActivo, tpp);
      sheet.View() == q.st && limit == q.limit
  {
    ghost var v0 := sheet.View();
    var next, style;
    next, limit, style := InsertarSeccionCuentas(sheet, "Pasivo", cuentas["Pasivo"], tipo, fechas, balances, totalActivo + 1, tpp, totalActivo);
    ghost var p := Placement(sheet.View(), next, limit, style);
    next, limit, style := InsertarSeccionCuentas(sheet, "Patrimonio", cuentas["Patrimonio"], tipo, fechas, balances, next, limit, next - 1);
    assert Placement(sheet.View(), next, limit, style) ==
           Section(p.st, "Patrimonio", cuentas["Patrimonio"], tipo, fechas, balances, p.next, p.limit, p.next - 1);
  }

  /** Lines 22-35 of `insertar_cuentas_en_hoja`: the phases after the assets. */
  method InsertarPasivoYResultados(sheet: Sheet, cuentas: map<string, seq<string>>, tipo: string,
                                   fechas: seq<string>, balances: Balances, totalActivo: int, tpp: int)
    requires HasSections(cuentas) && totalActivo >= 1 && tpp >= 1
    modifies sheet
    ensures sheet.View() == Liabilities(old(sheet.View()), cuentas, tipo, fechas, balances, totalActivo, tpp)
  {
    ghost var v0 := sheet.View();
    var limit := InsertarPasivoYPatrimonio(sheet, cuentas, tipo, fechas, balances, totalActivo, tpp);
    ghost var v1 := sheet.View();
    ActualizarFormulaSuma(sheet, limit, ColumnasValores(tipo, |fechas|), totalActivo + 1, limit - 1);
    ghost var v3 := sheet.View();
    InsertarEstadoResultados(sheet, cuentas[EstadoDeResultados], tipo, fechas, balances, limit + 1);
    LiabilitiesSteps(v0, cuentas, tipo, fechas, balances, totalActivo, tpp, v1, limit, v3, sheet.View());
  }

  /** The liabilities phase, given the result of each of its steps. */
  lemma LiabilitiesSteps(st: State, cuentas: map<string, seq<string>>, tipo: string, fechas: seq<string>,
                         balances: Balances, ta: int, tpp: int, v1: State, limit: int, v3: State, v4: State)
    requires HasSections(cuentas) && ta >= 1 && tpp >= 1
    requires v1 == PasivoYPatrimonio(st, cuentas, tipo, fechas, balances, ta, tpp).st
    requires limit == PasivoYPatrimonio(st, cuentas, tipo, fechas, balances, ta, tpp).limit
    requires v3 == SumFormulas(v1, limit, ColumnasValores(tipo, |fechas|), ta + 1, limit - 1)
    requires v4 == Resultados(v3, cuentas[EstadoDeResultados], tipo, fechas, balances, limit + 1)
    ensures v4 == Liabilities(st, cuentas, tipo, fechas, balances, ta, tpp)
  {
  }

  method InsertarCuentasEnHoja(sheet: Sheet, cuentas: map<string, seq<string>>, tipo: string,
                               fechas: seq<string>, balances: Balances)
    requires HasSections(cuentas)
    modifies sheet
    ensures sheet.View() == Hoja(old(sheet.View()), KeyRowsOf(old(sheet.View())), cuentas, tipo, fechas, balances)
  {
    var filas := BuscarFilasClave(sheet);
    InsertarEnFilas(sheet, filas, cuentas, tipo, fechas, balances);
  }

  /** `insertar_cuentas_en_hoja` once the key rows are known: the assets, then
      everything below TOTAL ACTIVO, which has moved down by the number of
      rows inserted for the assets. */
  method InsertarEnFilas(sheet: Sheet, filas: KeyRows, cuentas: map<string, seq<string>>, tipo: string,
                         fechas: seq<string>, balances: Balances)
    requires HasSections(cuentas) && PositiveRows(filas)
    modifies sheet
    ensures sheet.View() == Hoja(old(sheet.View()), filas, cuentas, tipo, fechas, balances)
  {
    ghost var v0 := sheet.View();
    var totalActivo := InsertarActivo(sheet, filas, cuentas, tipo, fechas, balances);
    ghost var v1 := sheet.View();
    var insertadas := totalActivo - filas.totalActivo;
    InsertarPasivoYResultados(sheet, cuentas, tipo, fechas, balances, totalActivo, filas.totalPasivoPatrimonio + insertadas);
    HojaSteps(v0, filas, cuentas, tipo, fechas, balances, v1, totalActivo, sheet.View());
  }

  /** The assets part of `insertar_cuentas_en_hoja`: the asset accounts above
      TOTAL ACTIVO, then its formula; the result is where TOTAL ACTIVO now
      sits. */
  method InsertarActivo(sheet: Sheet, k: KeyRows, cuentas: map<string, seq<string>>, tipo: string,
                        fechas: seq<string>, balances: Balances) returns (totalActivo: int)
    requires HasSections(cuentas) && PositiveRows(k)
    modifies sheet
    ensures var a := AssetsWithTotal(old(sheet.View()), k, cuentas, tipo, fechas, balances);
      totalActivo == a.limit && sheet.View() == a.st
  {
    ghost var v0 := sheet.View();
    var next, style;
    next, totalActivo, style := InsertarSeccionActivo(sheet, k, cuentas, tipo, fechas, balances);
    ghost var v1 := sheet.View();
    var cols := ColumnasValores(tipo, |fechas|);
    ActualizarFormulaSuma(sheet, totalActivo, cols, k.balanceGeneral + 1, totalActivo - 1);
    AssetsSteps(v0, k, cuentas, tipo, fechas, balances, v1, next, totalActivo, style, sheet.View());
  }

  /** The section call of the assets part: the asset accounts from the row
      after BALANCE GENERAL, with TOTAL ACTIVO as the limit. */
  method InsertarSeccionActivo(sheet: Sheet, k: KeyRows, cuentas: map<string, seq<string>>, tipo: string,
                               fechas: seq<string>, balances: Balances) returns (next: int, limit: int, style: int)
    requires HasSections(cuentas) && PositiveRows(k)
    modifies sheet
    ensures Placement(sheet.View(), next, limit, style) == Assets(old(sheet.View()), k, cuentas, tipo, fechas, balances)
  {
    next, limit, style := InsertarSeccionCuentas(sheet, "Activo", cuentas["Activo"], tipo, fechas, balances,
                                                 k.balanceGeneral + 1, k.totalActivo, k.balanceGeneral);
  }

  /** The assets part, given the result of each of its steps. */
  lemma AssetsSteps(st: State, k: KeyRows, cuentas: map<string, seq<string>>, tipo: string, fechas: seq<string>,
                    balances: Balances, v1: State, next: int, limit: int, style: int, v2: State)
    requires HasSections(cuentas) && PositiveRows(k)
    requires Placement(v1, next, limit, style) == Assets(st, k, cuentas, tipo, fechas, balances)
    requires v2 == SumFormulas(v1, limit, ColumnasValores(tipo, |fechas|), k.balanceGeneral + 1, limit - 1)
    ensures var a := AssetsWithTotal(st, k, cuentas, tipo, fechas, balances);
      limit == a.limit && v2 == a.st
  {
  }

  /** The whole sheet, given the result of each of its steps. */
  lemma HojaSteps(st: State, k: KeyRows, cuentas: map<string, seq<string>>, tipo: string, fechas: seq<string>,
                  balances: Balances, v1: State, limit: int, v2: State)
    requires HasSections(cuentas) && PositiveRows(k)
    requires v1 == AssetsWithTotal(st, k, cuentas, tipo, fechas, balances).st
    requires limit == AssetsWithTotal(st, k, cuentas, tipo, fechas, balances).limit
    requires v2 == Liabilities(v1, cuentas, tipo, fechas, balances, limit, k.totalPasivoPatrimonio + (limit - k.totalActivo))
    ensures v2 == Hoja(st, k, cuentas, tipo, fechas, balances)
  {
  }

  /** When BALANCE GENERAL lies above TOTAL ACTIVO, which lies no lower than
      TOTAL PASIVO Y PATRIMONIO, the assets phase carries the TOTAL ACTIVO row
      to the returned limit and the TOTAL PASIVO Y PATRIMONIO row down by the
      number of rows inserted for the assets, which is the row the liabilities
      phase is given. */
  lemma TotalsMoveWithAssets(st: State, k: KeyRows, cuentas: map<string, seq<string>>, tipo: string,
                             fechas: seq<string>, balances: Balances, c: int)
    requires HasSections(cuentas) && PositiveRows(k)
    requires k.balanceGeneral < k.totalActivo <= k.totalPasivoPatrimonio
    ensures var a := Assets(st, k, cuentas, tipo, fechas, balances);
      CellOf(a.st.rows, a.limit, c) == CellOf(st.rows, k.totalActivo, c) &&
      CellOf(a.st.rows, k.totalPasivoPatrimonio + (a.limit - k.totalActivo), c) == CellOf(st.rows, k.totalPasivoPatrimonio, c)
  {
    var a := Assets(st, k, cuentas, tipo, fechas, balances);
    ShiftsBelow(a, st, "Activo", cuentas["Activo"], tipo, fechas, balances, k.balanceGeneral + 1, k.totalActivo, k.balanceGeneral, k.totalActivo, c);
    ShiftsBelow(a, st, "Activo", cuentas["Activo"], tipo, fechas, balances, k.balanceGeneral + 1, k.totalActivo, k.balanceGeneral, k.totalPasivoPatrimonio, c);
  }
}
