/** The place of the summary table in a worksheet
    (auditoria/processors/excel/sumaria/deteccion.py, `buscar_tabla_sumaria`):
    the title row, the header row, the date columns and the account column. */
module SumariaTabla {
  import opened Wrappers
  import opened Text
  import opened Worksheet

  /** A cell whose text holds "SUMARIA" or "CEDULA": the title. */
  predicate EsTitulo(v: Option<Value>) {
    Contains(UpperText(v), "SUMARIA") || Contains(UpperText(v), "CEDULA")
  }

  /** A cell whose text holds "SALDOS S/ BALANCE": a date column's header. */
  predicate EsEncabezado(v: Option<Value>) {
    Contains(UpperText(v), "SALDOS S/ BALANCE")
  }

  /** A cell whose text holds "CUENTA" or "DESCRIPCIÓN": the account column. */
  predicate EsCuenta(v: Option<Value>) {
    Contains(UpperText(v), "CUENTA") || Contains(UpperText(v), "DESCRIPCIÓN")
  }

  /** Some column from 1 to 14 of row `r` holds a cell with the mark. */
  ghost predicate FilaCon(rows: Rows, r: int, marca: Option<Value> -> bool) {
    exists c :: 1 <= c < 15 && marca(CellOf(rows, r, c))
  }

  /** The first column from `c` to 14 of row `r` whose cell has the mark. */
  function PrimeraColumna(rows: Rows, r: int, marca: Option<Value> -> bool, c: int): Option<int>
    decreases 15 - c
  {
    if c >= 15 then None
    else if marca(CellOf(rows, r, c)) then Some(c)
    else PrimeraColumna(rows, r, marca, c + 1)
  }

  /** `PrimeraColumna` finds the first marked column from `c` on, and none
      when there is none. */
  lemma {:induction false} PrimeraColumnaEs(rows: Rows, r: int, marca: Option<Value> -> bool, c: int)
    ensures var res := PrimeraColumna(rows, r, marca, c);
      && (res.Some? ==> c <= res.value < 15 && marca(CellOf(rows, r, res.value)))
      && (res.Some? ==> forall k :: c <= k < res.value ==> !marca(CellOf(rows, r, k)))
      && (res.None? ==> forall k :: c <= k < 15 ==> !marca(CellOf(rows, r, k)))
    decreases 15 - c
  {
    if c < 15 && !marca(CellOf(rows, r, c)) {
      PrimeraColumnaEs(rows, r, marca, c + 1);
    }
  }

  /** A row holds a marked cell in columns 1 to 14 exactly when the search
      from column 1 finds one. */
  lemma FilaConColumna(rows: Rows, r: int, marca: Option<Value> -> bool)
    ensures FilaCon(rows, r, marca) <==> PrimeraColumna(rows, r, marca, 1).Some?
  {
    PrimeraColumnaEs(rows, r, marca, 1);
  }

  /** The first row from `r` to `hasta - 1` with the mark in columns 1 to
      14. */
  function PrimeraFila(rows: Rows, r: int, hasta: int, marca: Option<Value> -> bool): Option<int>
    decreases hasta - r
  {
    if r >= hasta then None
    else if PrimeraColumna(rows, r, marca, 1).Some? then Some(r)
    else PrimeraFila(rows, r + 1, hasta, marca)
  }

  /** The row `PrimeraFila` finds lies in the range and its column search
      succeeds. */
  lemma {:induction false} PrimeraFilaHallada(rows: Rows, r: int, hasta: int, marca: Option<Value> -> bool)
    ensures var res := PrimeraFila(rows, r, hasta, marca);
      res.Some? ==> r <= res.value < hasta && PrimeraColumna(rows, res.value, marca, 1).Some?
    decreases hasta - r
  {
    if r < hasta && PrimeraColumna(rows, r, marca, 1).None? {
      PrimeraFilaHallada(rows, r + 1, hasta, marca);
    }
  }

  /** No row before the one `PrimeraFila` finds, and no row of the range
      when it finds none, has a column search that succeeds. */
  lemma {:induction false} PrimeraFilaPrevias(rows: Rows, r: int, hasta: int, marca: Option<Value> -> bool)
    ensures var res := PrimeraFila(rows, r, hasta, marca);
      forall k :: r <= k < (if res.Some? then res.value else hasta) ==> PrimeraColumna(rows, k, marca, 1).None?
    decreases hasta - r
  {
    if r < hasta && PrimeraColumna(rows, r, marca, 1).None? {
      PrimeraFilaPrevias(rows, r + 1, hasta, marca);
    }
  }

  /** `PrimeraFila` finds the first row from `r` on holding a marked cell in
      columns 1 to 14, and none when there is none before `hasta`. */
  lemma PrimeraFilaCon(rows: Rows, r: int, hasta: int, marca: Option<Value> -> bool)
    ensures var res := PrimeraFila(rows, r, hasta, marca);
      && (res.Some? ==> r <= res.value < hasta && FilaCon(rows, res.value, marca))
      && (res.Some? ==> forall k :: r <= k < res.value ==> !FilaCon(rows, k, marca))
      && (res.None? ==> forall k :: r <= k < hasta ==> !FilaCon(rows, k, marca))
  {
    PrimeraFilaHallada(rows, r, hasta, marca);
    PrimeraFilaPrevias(rows, r, hasta, marca);
    forall k ensures FilaCon(rows, k, marca) <==> PrimeraColumna(rows, k, marca, 1).Some? {
      FilaConColumna(rows, k, marca);
    }
  }

  /** The columns from `c` to 14 of row `r` whose cells have the mark, in
      order. */
  function ColumnasCon(rows: Rows, r: int, marca: Option<Value> -> bool, c: int): seq<int>
    decreases 15 - c
  {
    if c >= 15 then []
    else
      var resto := ColumnasCon(rows, r, marca, c + 1);
      if marca(CellOf(rows, r, c)) then [c] + resto else resto
  }

  /** `ColumnasCon` holds exactly the marked columns from `c` on, in
      increasing order. */
  lemma {:induction false} ColumnasConEs(rows: Rows, r: int, marca: Option<Value> -> bool, c: int)
    ensures var res := ColumnasCon(rows, r, marca, c);
      && (forall x :: x in res <==> c <= x < 15 && marca(CellOf(rows, r, x)))
      && (forall i, j :: 0 <= i < j < |res| ==> res[i] < res[j])
    decreases 15 - c
  {
    if c < 15 {
      ColumnasConEs(rows, r, marca, c + 1);
      var resto := ColumnasCon(rows, r, marca, c + 1);
      assert forall j :: 0 <= j < |resto| ==> c < resto[j] by {
        forall j | 0 <= j < |resto| ensures c < resto[j] {
          assert resto[j] in resto;
        }
      }
    }
  }

  /** The table's place: the rows of the title, of the headers and of the
      first account, the date columns and the account column. */
  datatype Tabla = Tabla(filaTitulo: int, filaEncabezados: int, filaInicioDatos: int,
                         columnasFechas: seq<int>, columnaCuenta: Option<int>)

  /** `buscar_tabla_sumaria`: the first title row among rows 1 to 29, the
      first header row among the fifteen rows from the title on, the header
      columns of that row, the first account column of the next row, and the
      data two rows below the headers; no table without a title or headers. */
  function TablaSumaria(rows: Rows): Option<Tabla> {
    var t := PrimeraFila(rows, 1, 30, EsTitulo);
    if t.None? then None else TablaDesde(rows, t.value)
  }

  /** The table under the title row `t`, if its headers follow. */
  function TablaDesde(rows: Rows, t: int): Option<Tabla> {
    var h := PrimeraFila(rows, t, t + 15, EsEncabezado);
    if h.None? then None else Some(TablaEn(rows, t, h.value))
  }

  /** The table with its title in row `t` and its headers in row `h`. */
  function TablaEn(rows: Rows, t: int, h: int): Tabla {
    Tabla(t, h, h + 2, ColumnasCon(rows, h, EsEncabezado, 1), PrimeraColumna(rows, h + 1, EsCuenta, 1))
  }

  /** The title of the table found is in the first row among rows 1 to 29
      holding a title cell in columns 1 to 14. */
  lemma TablaSumariaTitulo(rows: Rows)
    requires TablaSumaria(rows).Some?
    ensures var t := TablaSumaria(rows).value.filaTitulo;
      && 1 <= t < 30 && FilaCon(rows, t, EsTitulo)
      && (forall k :: 1 <= k < t ==> !FilaCon(rows, k, EsTitulo))
  {
    PrimeraFilaCon(rows, 1, 30, EsTitulo);
  }

  /** The headers of the table found are in the first row among the fifteen
      from the title on holding a header cell, and the data start two rows
      below them. */
  lemma TablaSumariaEncabezados(rows: Rows)
    requires TablaSumaria(rows).Some?
    ensures var tb := TablaSumaria(rows).value;
      && tb.filaTitulo <= tb.filaEncabezados < tb.filaTitulo + 15
      && FilaCon(rows, tb.filaEncabezados, EsEncabezado)
      && (forall k :: tb.filaTitulo <= k < tb.filaEncabezados ==> !FilaCon(rows, k, EsEncabezado))
      && tb.filaInicioDatos == tb.filaEncabezados + 2
  {
    var t := PrimeraFila(rows, 1, 30, EsTitulo).value;
    PrimeraFilaCon(rows, t, t + 15, EsEncabezado);
  }

  /** The date columns of the table found are every header column of the
      header row, in increasing order, and there is at least one. */
  lemma TablaSumariaFechas(rows: Rows)
    requires TablaSumaria(rows).Some?
    ensures var tb := TablaSumaria(rows).value;
      && tb.columnasFechas != []
      && (forall x :: x in tb.columnasFechas <==> 1 <= x < 15 && EsEncabezado(CellOf(rows, tb.filaEncabezados, x)))
      && (forall i, j :: 0 <= i < j < |tb.columnasFechas| ==> tb.columnasFechas[i] < tb.columnasFechas[j])
  {
    var t := PrimeraFila(rows, 1, 30, EsTitulo).value;
    var h := PrimeraFila(rows, t, t + 15, EsEncabezado).value;
    PrimeraFilaHallada(rows, t, t + 15, EsEncabezado);
    PrimeraColumnaEs(rows, h, EsEncabezado, 1);
    ColumnasConEs(rows, h, EsEncabezado, 1);
    var c := PrimeraColumna(rows, h, EsEncabezado, 1).value;
    assert c in ColumnasCon(rows, h, EsEncabezado, 1);
  }

  /** The account column is the first column of the row below the headers
      whose cell names the account, or none. */
  lemma TablaSumariaCuenta(rows: Rows, fila: int)
    requires TablaSumaria(rows).Some? && fila == TablaSumaria(rows).value.filaEncabezados + 1
    ensures var col := TablaSumaria(rows).value.columnaCuenta;
      && (col.Some? ==> 1 <= col.value < 15 && EsCuenta(CellOf(rows, fila, col.value)))
      && (col.Some? ==> forall k :: 1 <= k < col.value ==> !EsCuenta(CellOf(rows, fila, k)))
      && (col.None? ==> forall k :: 1 <= k < 15 ==> !EsCuenta(CellOf(rows, fila, k)))
  {
    PrimeraColumnaEs(rows, fila, EsCuenta, 1);
  }

  /** No table: no title among rows 1 to 29, or no header among the fifteen
      rows from the first title on. */
  lemma TablaSumariaAusente(rows: Rows)
    requires TablaSumaria(rows).None?
    ensures (forall k :: 1 <= k < 30 ==> !FilaCon(rows, k, EsTitulo)) ||
      exists t :: (1 <= t < 30 && FilaCon(rows, t, EsTitulo) && (forall k :: 1 <= k < t ==> !FilaCon(rows, k, EsTitulo)) &&
                   forall k :: t <= k < t + 15 ==> !FilaCon(rows, k, EsEncabezado))
  {
    PrimeraFilaCon(rows, 1, 30, EsTitulo);
    var t := PrimeraFila(rows, 1, 30, EsTitulo);
    if t.Some? {
      PrimeraFilaCon(rows, t.value, t.value + 15, EsEncabezado);
    }
  }

  /** The first column from 1 to 14 of row `r` whose cell has the mark. */
  method BuscarColumna(sheet: Sheet, r: int, marca: Option<Value> -> bool) returns (col: Option<int>)
    ensures col == PrimeraColumna(sheet.rows, r, marca, 1)
  {
    for c := 1 to 15
      invariant PrimeraColumna(sheet.rows, r, marca, 1) == PrimeraColumna(sheet.rows, r, marca, c)
    {
      var val := CellOf(sheet.rows, r, c);
      if marca(val) {
        return Some(c);
      }
      assert PrimeraColumna(sheet.rows, r, marca, c) == PrimeraColumna(sheet.rows, r, marca, c + 1);
    }
    return None;
  }

  /** The first row from `desde` to `hasta - 1` with the mark in columns 1
      to 14. */
  method BuscarFila(sheet: Sheet, desde: int, hasta: int, marca: Option<Value> -> bool) returns (fila: Option<int>)
    requires desde <= hasta
    ensures fila == PrimeraFila(sheet.rows, desde, hasta, marca)
  {
    for r := desde to hasta
      invariant PrimeraFila(sheet.rows, desde, hasta, marca) == PrimeraFila(sheet.rows, r, hasta, marca)
    {
      var col := BuscarColumna(sheet, r, marca);
      if col.Some? {
        return Some(r);
      }
      assert PrimeraFila(sheet.rows, r, hasta, marca) == PrimeraFila(sheet.rows, r + 1, hasta, marca);
    }
    return None;
  }

  /** `buscar_tabla_sumaria(sheet)` */
  method BuscarTablaSumaria(sheet: Sheet) returns (tabla: Option<Tabla>)
    ensures tabla == TablaSumaria(sheet.rows)
  {
    var filaTitulo := BuscarFila(sheet, 1, 30, EsTitulo);
    if filaTitulo.None? {
      return None;
    }
    var t := filaTitulo.value;
    var filaEncabezados := BuscarFila(sheet, t, t + 15, EsEncabezado);
    if filaEncabezados.None? {
      return None;
    }
    var h := filaEncabezados.value;
    var columnasFechas := ColumnasCon(sheet.rows, h, EsEncabezado, 1);
    var columnaCuenta := BuscarColumna(sheet, h + 1, EsCuenta);
    TablaHallada(sheet.rows, t, h);
    tabla := Some(Tabla(t, h, h + 2, columnasFechas, columnaCuenta));
  }

  lemma TablaHallada(rows: Rows, t: int, h: int)
    requires PrimeraFila(rows, 1, 30, EsTitulo) == Some(t)
    requires PrimeraFila(rows, t, t + 15, EsEncabezado) == Some(h)
    ensures TablaSumaria(rows) == Some(Tabla(t, h, h + 2, ColumnasCon(rows, h, EsEncabezado, 1), PrimeraColumna(rows, h + 1, EsCuenta, 1)))
  {
  }


}
