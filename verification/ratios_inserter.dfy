/** Writing one section of the financial-ratio sheets
    (auditoria/processors/excel/ratios_financieros/inserter.py): the
    accounts of both years, sorted, one per row from the first row of the
    range, with the name in column C and each year's value in its column;
    the accounts that do not fit the range are dropped. */
module RatiosInserter {
  import opened Wrappers
  import opened PyDict
  import opened Worksheet
  import Lex
  import Ratios

  const ColNombre := 3

  /** The accounts of one date of the section, none when the section is
      not a dictionary or lacks that date. */
  function CuentasDeFecha(datos: Option<Ratios.Cubeta>, fecha: string): seq<string> {
    if datos.Some? && fecha in datos.value then Keys(datos.value[fecha]) else []
  }

  /** `sorted(cuentas_unicas)`: the accounts of both dates, sorted without
      repeats. */
  function Cuentas(datos: Option<Ratios.Cubeta>, actual: string, anterior: string): seq<string> {
    Lex.SortedSet(CuentasDeFecha(datos, actual) + CuentasDeFecha(datos, anterior))
  }

  /** `datos_seccion[fecha].get(cuenta, 0)` */
  function Valor(d: Ratios.Cubeta, fecha: string, cuenta: string): real
    requires fecha in d
  {
    match Get(d[fecha], cuenta)
    case Some(v) => v
    case None => 0.0
  }

  /** The columns of the two years' values. */
  datatype Columnas = Columnas(actual: int, anterior: int)

  /** One account's row: its name, then the current year's value when the
      section has that date, then the previous year's. */
  function EscribirCuenta(st: State, fila: int, cuenta: string, datos: Option<Ratios.Cubeta>, cols: Columnas,
                          actual: string, anterior: string): State
    requires fila >= 1 && cols.actual >= 1 && cols.anterior >= 1
  {
    var st1 := Write(st, fila, ColNombre, Str(cuenta));
    var st2 := if datos.Some? && actual in datos.value then Write(st1, fila, cols.actual, Num(Valor(datos.value, actual, cuenta))) else st1;
    if datos.Some? && anterior in datos.value then Write(st2, fila, cols.anterior, Num(Valor(datos.value, anterior, cuenta))) else st2
  }

  /** The rows of `cuentas`, one per row from `inicio`. */
  function EscribirCuentas(st: State, inicio: int, cuentas: seq<string>, datos: Option<Ratios.Cubeta>, cols: Columnas,
                           actual: string, anterior: string): State
    requires inicio >= 1 && cols.actual >= 1 && cols.anterior >= 1
  {
    if cuentas == [] then st
    else
      var n := |cuentas| - 1;
      EscribirCuenta(EscribirCuentas(st, inicio, cuentas[..n], datos, cols, actual, anterior), inicio + n, cuentas[n],
                     datos, cols, actual, anterior)
  }

  /** How many of `n` accounts fit rows `inicio` to `fin`. */
  function Cantidad(inicio: int, fin: int, n: nat): (k: nat)
    ensures k <= n
    ensures k == n || k == fin - inicio + 1 || (k == 0 && fin - inicio + 1 <= 0)
    ensures inicio + k - 1 <= fin || k == 0
  {
    var disponibles := fin - inicio + 1;
    if disponibles <= 0 then 0 else if n < disponibles then n else disponibles
  }

  /** The sheet after `insertar_cuentas_en_rango`. */
  function Insertar(st: State, inicio: int, fin: int, datos: Option<Ratios.Cubeta>, cols: Columnas,
                    actual: string, anterior: string): State
    requires inicio >= 1 && cols.actual >= 1 && cols.anterior >= 1
  {
    var cuentas := Cuentas(datos, actual, anterior);
    EscribirCuentas(st, inicio, cuentas[..Cantidad(inicio, fin, |cuentas|)], datos, cols, actual, anterior)
  }

  method EscribirCuentaEn(sheet: Sheet, fila: int, cuenta: string, datos: Option<Ratios.Cubeta>, cols: Columnas,
                          actual: string, anterior: string)
    requires fila >= 1 && cols.actual >= 1 && cols.anterior >= 1
    modifies sheet
    ensures sheet.View() == EscribirCuenta(old(sheet.View()), fila, cuenta, datos, cols, actual, anterior)
  {
    sheet.Set(fila, ColNombre, Str(cuenta));
    EscribirValoresEn(sheet, fila, cuenta, datos, cols, actual, anterior);
  }

  method EscribirValoresEn(sheet: Sheet, fila: int, cuenta: string, datos: Option<Ratios.Cubeta>, cols: Columnas,
                           actual: string, anterior: string)
    requires fila >= 1 && cols.actual >= 1 && cols.anterior >= 1
    modifies sheet
    ensures var st1 := old(sheet.View());
      var st2 := if datos.Some? && actual in datos.value then Write(st1, fila, cols.actual, Num(Valor(datos.value, actual, cuenta))) else st1;
      sheet.View() == if datos.Some? && anterior in datos.value then Write(st2, fila, cols.anterior, Num(Valor(datos.value, anterior, cuenta))) else st2
  {
    if datos.Some? && actual in datos.value {
      sheet.Set(fila, cols.actual, Num(Valor(datos.value, actual, cuenta)));
    }
    if datos.Some? && anterior in datos.value {
      sheet.Set(fila, cols.anterior, Num(Valor(datos.value, anterior, cuenta)));
    }
  }

  /** The row of account `i`, after those of the accounts before it. */
  method SiguienteEn(sheet: Sheet, ghost base: State, inicio: int, cuentas: seq<string>, i: nat, datos: Option<Ratios.Cubeta>,
                     cols: Columnas, actual: string, anterior: string)
    requires inicio >= 1 && cols.actual >= 1 && cols.anterior >= 1 && i < |cuentas|
    requires sheet.View() == EscribirCuentas(base, inicio, cuentas[..i], datos, cols, actual, anterior)
    modifies sheet
    ensures sheet.View() == EscribirCuentas(base, inicio, cuentas[..i + 1], datos, cols, actual, anterior)
  {
    EscribirCuentasSnoc(base, inicio, cuentas, i, datos, cols, actual, anterior);
    EscribirCuentaEn(sheet, inicio + i, cuentas[i], datos, cols, actual, anterior);
  }

  /** `insertar_cuentas_en_rango`. Rows and columns below 1 are refused by
      the sheet, so the range and the columns start at 1. */
  method InsertarCuentasEnRango(sheet: Sheet, inicio: int, fin: int, datos: Option<Ratios.Cubeta>, cols: Columnas,
                                actual: string, anterior: string)
    requires inicio >= 1 && cols.actual >= 1 && cols.anterior >= 1
    modifies sheet
    ensures sheet.View() == Insertar(old(sheet.View()), inicio, fin, datos, cols, actual, anterior)
  {
    ghost var base := sheet.View();
    var disponibles := fin - inicio + 1;
    var cuentas := Cuentas(datos, actual, anterior);
    ghost var k := Cantidad(inicio, fin, |cuentas|);
    var i := 0;
    while i < |cuentas|
      invariant 0 <= i <= k
      invariant sheet.View() == EscribirCuentas(base, inicio, cuentas[..i], datos, cols, actual, anterior)
    {
      if i >= disponibles {
        break;
      }
      SiguienteEn(sheet, base, inicio, cuentas, i, datos, cols, actual, anterior);
      i := i + 1;
    }
    CantidadAlSalir(inicio, fin, |cuentas|, i);
  }

  /** The loop stops at the last account or at the last row, whichever comes
      first. */
  lemma CantidadAlSalir(inicio: int, fin: int, n: nat, i: nat)
    requires i <= Cantidad(inicio, fin, n)
    requires i >= n || i >= fin - inicio + 1
    ensures i == Cantidad(inicio, fin, n)
  {
  }

  lemma EscribirCuentasSnoc(st: State, inicio: int, cuentas: seq<string>, i: nat, datos: Option<Ratios.Cubeta>, cols: Columnas,
                            actual: string, anterior: string)
    requires inicio >= 1 && cols.actual >= 1 && cols.anterior >= 1 && i < |cuentas|
    ensures EscribirCuentas(st, inicio, cuentas[..i + 1], datos, cols, actual, anterior) ==
      EscribirCuenta(EscribirCuentas(st, inicio, cuentas[..i], datos, cols, actual, anterior), inicio + i, cuentas[i],
                     datos, cols, actual, anterior)
  {
    assert cuentas[..i + 1][..i] == cuentas[..i];
  }

  // ------------------------------------------------------------ properties

  lemma {:induction false} EnCuentasDeFecha(datos: Option<Ratios.Cubeta>, fecha: string, cuenta: string)
    ensures cuenta in CuentasDeFecha(datos, fecha) <==> datos.Some? && fecha in datos.value && HasKey(datos.value[fecha], cuenta)
  {
    if datos.Some? && fecha in datos.value {
      var d := datos.value[fecha];
      if HasKey(d, cuenta) {
        var i :| 0 <= i < |d| && d[i].0 == cuenta;
        assert Keys(d)[i] == cuenta;
      }
    }
  }

  /** The accounts are sorted without repeats, and are exactly those of
      either date. */
  lemma CuentasEs(datos: Option<Ratios.Cubeta>, actual: string, anterior: string)
    ensures Lex.StrictlySorted(Cuentas(datos, actual, anterior))
    ensures forall cuenta :: cuenta in Cuentas(datos, actual, anterior) <==>
      datos.Some? && ((actual in datos.value && HasKey(datos.value[actual], cuenta)) ||
                      (anterior in datos.value && HasKey(datos.value[anterior], cuenta)))
  {
    forall cuenta ensures cuenta in Cuentas(datos, actual, anterior) <==>
      datos.Some? && ((actual in datos.value && HasKey(datos.value[actual], cuenta)) ||
                      (anterior in datos.value && HasKey(datos.value[anterior], cuenta))) {
      EnCuentasDeFecha(datos, actual, cuenta);
      EnCuentasDeFecha(datos, anterior, cuenta);
    }
  }

  /** What an account's row holds in column `c`: the previous year's value,
      else the current year's (each when the section has that date), else
      the name in column C; nothing for other columns. */
  function CeldaDeCuenta(cuenta: string, c: int, datos: Option<Ratios.Cubeta>, cols: Columnas,
                         actual: string, anterior: string): Option<Value> {
    if datos.Some? && anterior in datos.value && c == cols.anterior then Some(Num(Valor(datos.value, anterior, cuenta)))
    else if datos.Some? && actual in datos.value && c == cols.actual then Some(Num(Valor(datos.value, actual, cuenta)))
    else if c == ColNombre then Some(Str(cuenta))
    else None
  }

  /** A cell after writing one account's row. */
  lemma CeldaDeFila(st: State, fila: int, cuenta: string, datos: Option<Ratios.Cubeta>, cols: Columnas,
                    actual: string, anterior: string, r: int, c: int)
    requires fila >= 1 && cols.actual >= 1 && cols.anterior >= 1
    ensures CellOf(EscribirCuenta(st, fila, cuenta, datos, cols, actual, anterior).rows, r, c) ==
      if r == fila && CeldaDeCuenta(cuenta, c, datos, cols, actual, anterior).Some?
      then CeldaDeCuenta(cuenta, c, datos, cols, actual, anterior)
      else CellOf(st.rows, r, c)
  {
  }

  /** A cell after writing accounts from `inicio`: account i's row is row
      `inicio + i`; every cell of other rows or columns is unchanged. */
  lemma {:induction false} CeldaEscrita(st: State, inicio: int, cuentas: seq<string>, datos: Option<Ratios.Cubeta>,
                                        cols: Columnas, actual: string, anterior: string, r: int, c: int)
    requires inicio >= 1 && cols.actual >= 1 && cols.anterior >= 1
    ensures var w := EscribirCuentas(st, inicio, cuentas, datos, cols, actual, anterior);
      CellOf(w.rows, r, c) ==
        if inicio <= r < inicio + |cuentas| && CeldaDeCuenta(cuentas[r - inicio], c, datos, cols, actual, anterior).Some?
        then CeldaDeCuenta(cuentas[r - inicio], c, datos, cols, actual, anterior)
        else CellOf(st.rows, r, c)
  {
    if cuentas != [] {
      var n := |cuentas| - 1;
      var previo := EscribirCuentas(st, inicio, cuentas[..n], datos, cols, actual, anterior);
      assert EscribirCuentas(st, inicio, cuentas, datos, cols, actual, anterior) ==
        EscribirCuenta(previo, inicio + n, cuentas[n], datos, cols, actual, anterior);
      CeldaEscrita(st, inicio, cuentas[..n], datos, cols, actual, anterior, r, c);
      CeldaDeFila(previo, inicio + n, cuentas[n], datos, cols, actual, anterior, r, c);
      if inicio <= r < inicio + n {
        assert cuentas[..n][r - inicio] == cuentas[r - inicio];
      } else if r == inicio + n {
        assert cuentas[r - inicio] == cuentas[n];
      }
    }
  }

  /** The section after `insertar_cuentas_en_rango`, cell by cell: the first
      accounts that fit rows `inicio` to `fin` are written in sorted order,
      a date lacking an account giving 0; nothing outside those rows
      changes. */
  lemma InsertarCelda(st: State, inicio: int, fin: int, datos: Option<Ratios.Cubeta>, cols: Columnas,
                      actual: string, anterior: string, r: int, c: int)
    requires inicio >= 1 && cols.actual >= 1 && cols.anterior >= 1
    ensures var cuentas := Cuentas(datos, actual, anterior);
      var k := Cantidad(inicio, fin, |cuentas|);
      CellOf(Insertar(st, inicio, fin, datos, cols, actual, anterior).rows, r, c) ==
        if inicio <= r < inicio + k && CeldaDeCuenta(cuentas[r - inicio], c, datos, cols, actual, anterior).Some?
        then CeldaDeCuenta(cuentas[r - inicio], c, datos, cols, actual, anterior)
        else CellOf(st.rows, r, c)
  {
    var cuentas := Cuentas(datos, actual, anterior);
    var k := Cantidad(inicio, fin, |cuentas|);
    CeldaEscrita(st, inicio, cuentas[..k], datos, cols, actual, anterior, r, c);
    if inicio <= r < inicio + k {
      assert cuentas[..k][r - inicio] == cuentas[r - inicio];
    }
  }

  /** A value column of a date the section has holds the account's value
      there, or 0 when it lacks the account. */
  lemma ValorCero(d: Ratios.Cubeta, fecha: string, cuenta: string)
    requires fecha in d
    ensures !HasKey(d[fecha], cuenta) ==> Valor(d, fecha, cuenta) == 0.0
    ensures HasKey(d[fecha], cuenta) ==> (cuenta, Valor(d, fecha, cuenta)) in d[fecha]
  {
  }
}
