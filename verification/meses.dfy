/** The months an activity spans (tools/utils.py): starting at the first
    day of the start's month, one entry per month while that first day is
    not after the end. */
module MesesEntreFechas {
  import opened Calendario

  /** A `datetime`: a date and the second of its day. */
  datatype Instante = Instante(fecha: Fecha, segundo: int)

  predicate InstanteValido(t: Instante) {
    Valida(t.fecha) && 0 <= t.segundo < 86400
  }

  /** `a <= b` on datetimes. */
  predicate NoPosterior(a: Instante, b: Instante) {
    !Posterior(a.fecha, b.fecha) && (a.fecha == b.fecha ==> a.segundo <= b.segundo)
  }

  /** Months counted from January of year 0. */
  function Indice(anio: int, mes: int): int {
    anio * 12 + mes - 1
  }

  function MesDe(i: int): (m: int)
    ensures 1 <= m <= 12
  {
    i % 12 + 1
  }

  function AnioDe(i: int): int {
    i / 12
  }

  /** `+ relativedelta(months=1)` on the first day of a month. */
  function SiguienteMes(anio: int, mes: int): (int, int) {
    if mes == 12 then (anio + 1, 1) else (anio, mes + 1)
  }

  /** The first day of the month with index `i`, at second `segundo`. */
  function Primero(i: int, segundo: int): Instante {
    Instante(Fecha(AnioDe(i), MesDe(i), 1), segundo)
  }

  function IndiceDe(t: Instante): int {
    Indice(t.fecha.anio, t.fecha.mes)
  }

  /** The number of months listed: every month from the start's up to the
      end's, the end's month only when its first day, at the start's time
      of day, is not after the end. */
  function Cantidad(inicio: Instante, fin: Instante): nat {
    var d := IndiceDe(fin) - IndiceDe(inicio);
    var ultimo := if fin.fecha.dia > 1 || fin.segundo >= inicio.segundo then 1 else 0;
    if d + ultimo < 0 then 0 else d + ultimo
  }

  lemma IndicePrimero(i: int, segundo: int)
    ensures IndiceDe(Primero(i, segundo)) == i
  {
  }

  /** Advancing the index by one is `relativedelta(months=1)`: December
      wraps to January of the next year. */
  lemma Siguiente(i: int)
    ensures (AnioDe(i + 1), MesDe(i + 1)) == SiguienteMes(AnioDe(i), MesDe(i))
  {
    if i % 12 == 11 {
      assert i + 1 == (AnioDe(i) + 1) * 12;
    } else {
      assert i + 1 == AnioDe(i) * 12 + (i % 12 + 1);
    }
  }

  /** The first day of month `i` is not after `fin` exactly when `i` comes
      before the end's month, or is that month and the end is not earlier
      on its first day. */
  lemma PrimeroNoPosterior(i: int, segundo: int, fin: Instante)
    requires Valida(fin.fecha)
    ensures NoPosterior(Primero(i, segundo), fin) <==>
            i < IndiceDe(fin) || (i == IndiceDe(fin) && (fin.fecha.dia > 1 || fin.segundo >= segundo))
  {
    var f := Primero(i, segundo).fecha;
    IndicePrimero(i, segundo);
    if i < IndiceDe(fin) {
      assert f.anio < fin.fecha.anio || (f.anio == fin.fecha.anio && f.mes < fin.fecha.mes);
    } else if i > IndiceDe(fin) {
      assert f.anio > fin.fecha.anio || (f.anio == fin.fecha.anio && f.mes > fin.fecha.mes);
    } else {
      assert f.anio == fin.fecha.anio && f.mes == fin.fecha.mes;
    }
  }

  /** `get_and_year_months_between_dates(start_date, end_date)` */
  method GetAndYearMonthsBetweenDates(inicio: Instante, fin: Instante) returns (meses: seq<int>, anios: seq<int>)
    requires InstanteValido(inicio) && InstanteValido(fin)
    ensures |meses| == |anios| == Cantidad(inicio, fin)
    ensures forall k :: 0 <= k < |meses| ==>
              meses[k] == MesDe(IndiceDe(inicio) + k) && anios[k] == AnioDe(IndiceDe(inicio) + k)
  {
    var i0 := IndiceDe(inicio);
    var actual := Instante(Fecha(inicio.fecha.anio, inicio.fecha.mes, 1), inicio.segundo);
    assert actual == Primero(i0, inicio.segundo);
    meses, anios := [], [];
    PrimeroNoPosterior(i0, inicio.segundo, fin);
    while NoPosterior(actual, fin)
      invariant |meses| == |anios| <= Cantidad(inicio, fin)
      invariant actual == Primero(i0 + |meses|, inicio.segundo)
      invariant NoPosterior(actual, fin) <==> |meses| < Cantidad(inicio, fin)
      invariant forall k :: 0 <= k < |meses| ==> meses[k] == MesDe(i0 + k) && anios[k] == AnioDe(i0 + k)
      decreases Cantidad(inicio, fin) - |meses|
    {
      var i := i0 + |meses|;
      meses := meses + [actual.fecha.mes];
      anios := anios + [actual.fecha.anio];
      var (a, m) := SiguienteMes(actual.fecha.anio, actual.fecha.mes);
      Siguiente(i);
      actual := Instante(Fecha(a, m, 1), inicio.segundo);
      PrimeroNoPosterior(i + 1, inicio.segundo, fin);
    }
  }

  /** The (year, month) of entry `k` of the lists. */
  function Entrada(inicio: Instante, k: int): (int, int) {
    (AnioDe(IndiceDe(inicio) + k), MesDe(IndiceDe(inicio) + k))
  }

  /** A month is listed exactly when it is not before the start's month and
      its first day, at the start's time of day, is not after the end. */
  lemma ListaExactamente(inicio: Instante, fin: Instante, anio: int, mes: int)
    requires InstanteValido(inicio) && InstanteValido(fin) && 1 <= mes <= 12
    ensures (exists k :: 0 <= k < Cantidad(inicio, fin) && Entrada(inicio, k) == (anio, mes))
            <==> Indice(anio, mes) >= IndiceDe(inicio) && NoPosterior(Instante(Fecha(anio, mes, 1), inicio.segundo), fin)
  {
    var i := Indice(anio, mes);
    var i0 := IndiceDe(inicio);
    assert Primero(i, inicio.segundo) == Instante(Fecha(anio, mes, 1), inicio.segundo);
    PrimeroNoPosterior(i, inicio.segundo, fin);
    if i >= i0 && NoPosterior(Instante(Fecha(anio, mes, 1), inicio.segundo), fin) {
      var k := i - i0;
      assert Entrada(inicio, k) == (anio, mes);
    }
    forall k | 0 <= k < Cantidad(inicio, fin) && Entrada(inicio, k) == (anio, mes)
      ensures i == i0 + k && i >= i0 && NoPosterior(Instante(Fecha(anio, mes, 1), inicio.segundo), fin)
    {
      IndicePrimero(i0 + k, inicio.segundo);
      PrimeroNoPosterior(i0 + k, inicio.segundo, fin);
    }
  }

  /** The list starts at the start's own month and year, and each next
      entry is the following month. */
  lemma MesesConsecutivos(inicio: Instante, fin: Instante, k: nat)
    requires k + 1 < Cantidad(inicio, fin)
    ensures (AnioDe(IndiceDe(inicio) + k + 1), MesDe(IndiceDe(inicio) + k + 1)) ==
            SiguienteMes(AnioDe(IndiceDe(inicio) + k), MesDe(IndiceDe(inicio) + k))
  {
    Siguiente(IndiceDe(inicio) + k);
  }

  lemma PrimerMes(inicio: Instante)
    requires Valida(inicio.fecha)
    ensures MesDe(IndiceDe(inicio)) == inicio.fecha.mes && AnioDe(IndiceDe(inicio)) == inicio.fecha.anio
  {
    IndicePrimero(IndiceDe(inicio), inicio.segundo);
  }

  /** Nothing is listed exactly when the first day of the start's month is
      after the end. */
  lemma VaciaSiPosterior(inicio: Instante, fin: Instante)
    requires InstanteValido(inicio) && InstanteValido(fin)
    ensures Cantidad(inicio, fin) == 0 <==>
            !NoPosterior(Instante(Fecha(inicio.fecha.anio, inicio.fecha.mes, 1), inicio.segundo), fin)
  {
    PrimerMes(inicio);
    assert Primero(IndiceDe(inicio), inicio.segundo) == Instante(Fecha(inicio.fecha.anio, inicio.fecha.mes, 1), inicio.segundo);
    PrimeroNoPosterior(IndiceDe(inicio), inicio.segundo, fin);
  }
}
