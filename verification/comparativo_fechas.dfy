/** The date of the comparative sheet: of every balance key
    "TIPO-YYYY-MM-DD[-...]" whose date `datetime` accepts, the one with the
    latest date, written back as "TIPO-YYYY-MM-DD". */
module ComparativoFechas {
  import opened Wrappers
  import opened Text
  import opened Calendario
  import opened PyDict

  /** What the loop keeps for a key: its parsed date, its type and the
      date text "YYYY-MM-DD" as it appears in the key. */
  datatype Registro = Registro(fecha: Fecha, tipo: string, texto: string)

  /** The record a balance key contributes, or None when the key has fewer
      than four '-' fields or `strptime` raises ValueError on its date. */
  function Entrada(clave: string): (r: Option<Registro>)
    ensures r.Some? ==> Valida(r.value.fecha)
    ensures r.Some? <==> (|Split(clave, '-')| >= 4 &&
      var p := Split(clave, '-'); Strptime(p[1], p[2], p[3]).Some?)
  {
    var p := Split(clave, '-');
    if |p| < 4 then None
    else
      match Strptime(p[1], p[2], p[3])
      case None => None
      case Some(f) => Some(Registro(f, p[0], p[1] + "-" + p[2] + "-" + p[3]))
  }

  /** The text returned for a record: "TIPO-YYYY-MM-DD". */
  function Base(e: Registro): string {
    e.tipo + "-" + e.texto
  }

  /** The record of every key, in the order of the keys. */
  function Entradas(claves: seq<string>): (es: seq<Option<Registro>>)
    ensures |es| == |claves|
    ensures forall i :: 0 <= i < |claves| ==> es[i] == Entrada(claves[i])
  {
    if claves == [] then []
    else Entradas(claves[..|claves| - 1]) + [Entrada(claves[|claves| - 1])]
  }

  /** The `años` dictionary after the loop has seen the records `es`: per
      year, the record with the latest date, a later record replacing a
      stored one only when its date is strictly later. */
  function Anios(es: seq<Option<Registro>>): Dict<int, Registro>
  {
    if es == [] then []
    else
      var d := Anios(es[..|es| - 1]);
      Visitar(d, es[|es| - 1])
  }

  /** One iteration of the loop over the keys. */
  function Visitar(d: Dict<int, Registro>, entrada: Option<Registro>): Dict<int, Registro>
  {
    match entrada
    case None => d
    case Some(e) =>
      var previo := Get(d, e.fecha.anio);
      if previo.None? || Posterior(e.fecha, previo.value.fecha) then Put(d, e.fecha.anio, e) else d
  }

  /** `max(años.keys())` */
  function MaxClave(d: Dict<int, Registro>): (m: int)
    requires d != []
    ensures HasKey(d, m)
    ensures forall i :: 0 <= i < |d| ==> d[i].0 <= m
  {
    if |d| == 1 then d[0].0
    else
      var m := MaxClave(d[1..]);
      assert forall i :: 1 <= i < |d| ==> d[i] == d[1..][i - 1];
      if d[0].0 >= m then d[0].0 else m
  }

  /** `obtener_año_mas_reciente` on the keys of the balances. */
  function AnioMasReciente(claves: seq<string>): Option<string>
  {
    Elegir(Anios(Entradas(claves)))
  }

  /** The lines after the loop: None for an empty `años`, else the record
      of its greatest year. */
  function Elegir(d: Dict<int, Registro>): Option<string>
  {
    if d == [] then None
    else
      var y := MaxClave(d);
      Some(Base(Get(d, y).value))
  }

  /** The loop and the choice after it. */
  method ObtenerAnioMasReciente<V>(balances: Dict<string, V>) returns (r: Option<string>)
    ensures r == AnioMasReciente(Keys(balances))
  {
    var claves := Keys(balances);
    var anios: Dict<int, Registro> := [];
    for i := 0 to |claves|
      invariant anios == Anios(Entradas(claves[..i]))
    {
      assert claves[..i + 1][..i] == claves[..i];
      var es := Entradas(claves[..i + 1]);
      assert es[..i] == Entradas(claves[..i]);
      anios := Visitar(anios, Entrada(claves[i]));
    }
    assert claves[..|claves|] == claves;
    if anios == [] {
      return None;
    }
    var anio := MaxClave(anios);
    var dato := Get(anios, anio).value;
    r := Some(dato.tipo + "-" + dato.texto);
  }

  // ------------------------------------------------------------ properties

  predicate Fechada(es: seq<Option<Registro>>, j: int)
    requires 0 <= j < |es|
  {
    es[j].Some?
  }

  function FechaDe(es: seq<Option<Registro>>, j: int): Fecha
    requires 0 <= j < |es| && Fechada(es, j)
  {
    es[j].value.fecha
  }

  predicate DelAnio(es: seq<Option<Registro>>, j: int, y: int)
    requires 0 <= j < |es|
  {
    Fechada(es, j) && FechaDe(es, j).anio == y
  }

  /** Record `i` is the first of year `y` whose date no record of that year
      beats. */
  predicate MejorDelAnio(es: seq<Option<Registro>>, i: int, y: int)
  {
    0 <= i < |es| && DelAnio(es, i, y) &&
    (forall j :: 0 <= j < |es| && DelAnio(es, j, y) ==> !Posterior(FechaDe(es, j), FechaDe(es, i))) &&
    (forall j :: 0 <= j < i && DelAnio(es, j, y) ==> FechaDe(es, j) != FechaDe(es, i))
  }

  /** Record `i` is the first whose date no record beats. */
  predicate MejorGlobal(es: seq<Option<Registro>>, i: int)
  {
    0 <= i < |es| && Fechada(es, i) &&
    (forall j :: 0 <= j < |es| && Fechada(es, j) ==> !Posterior(FechaDe(es, j), FechaDe(es, i))) &&
    (forall j :: 0 <= j < i && Fechada(es, j) ==> FechaDe(es, j) != FechaDe(es, i))
  }

  lemma PosteriorTransitiva(a: Fecha, b: Fecha, c: Fecha)
    ensures !Posterior(a, b) && Posterior(c, b) ==> Posterior(c, a)
  {
  }

  /** For every year, `años` holds no record exactly when no key has a date
      of that year, and otherwise the record of the first key holding the
      latest date of that year. */
  lemma {:induction false} AniosPorAnio(es: seq<Option<Registro>>, y: int)
    ensures Get(Anios(es), y).None? <==> forall j :: 0 <= j < |es| ==> !DelAnio(es, j, y)
    ensures Get(Anios(es), y).Some? ==>
      exists i :: MejorDelAnio(es, i, y) && Get(Anios(es), y) == es[i]
  {
    if es != [] {
      var n := |es| - 1;
      var ant := es[..n];
      AniosPorAnio(ant, y);
      var d := Anios(ant);
      assert Anios(es) == Visitar(d, es[n]);
      if !DelAnio(es, n, y) {
        assert Get(Anios(es), y) == Get(d, y) by {
          if es[n].Some? {
            GetPut(d, es[n].value.fecha.anio, es[n].value, y);
          }
        }
        if Get(d, y).None? {
          Ninguno(es, ant, y);
        } else {
          var i :| MejorDelAnio(ant, i, y) && Get(d, y) == ant[i];
          assert ant[i] == es[i];
          Mantiene(es, y, i);
        }
      } else {
        var e := es[n].value;
        GetPut(d, e.fecha.anio, e, y);
        var previo := Get(d, e.fecha.anio);
        if previo.None? {
          Ninguno(es, ant, y);
          assert MejorDelAnio(es, n, y);
        } else {
          var i :| MejorDelAnio(ant, i, y) && Get(d, y) == ant[i];
          assert ant[i] == es[i];
          if Posterior(e.fecha, previo.value.fecha) {
            Reemplaza(es, y, i);
          } else {
            Mantiene(es, y, i);
          }
        }
      }
    }
  }

  /** Where the last record is not of year `y`, no earlier record of that
      year means no record of that year at all. */
  lemma Ninguno(es: seq<Option<Registro>>, ant: seq<Option<Registro>>, y: int)
    requires es != [] && ant == es[..|es| - 1]
    requires forall j :: 0 <= j < |ant| ==> !DelAnio(ant, j, y)
    ensures forall j :: 0 <= j < |es| - 1 ==> !DelAnio(es, j, y)
  {
    forall j | 0 <= j < |es| - 1 ensures !DelAnio(es, j, y) {
      assert ant[j] == es[j];
      assert !DelAnio(ant, j, y);
    }
  }

  /** A record strictly later than the best of its year becomes the best. */
  lemma Reemplaza(es: seq<Option<Registro>>, y: int, i: int)
    requires es != [] && DelAnio(es, |es| - 1, y)
    requires MejorDelAnio(es[..|es| - 1], i, y)
    requires Posterior(FechaDe(es, |es| - 1), FechaDe(es, i))
    ensures MejorDelAnio(es, |es| - 1, y)
  {
    var n := |es| - 1;
    var ant := es[..n];
    assert ant[i] == es[i];
    forall j | 0 <= j < n && DelAnio(es, j, y)
      ensures Posterior(FechaDe(es, n), FechaDe(es, j))
    {
      assert ant[j] == es[j];
      assert !Posterior(FechaDe(ant, j), FechaDe(ant, i));
      PosteriorTransitiva(FechaDe(es, j), FechaDe(es, i), FechaDe(es, n));
    }
  }

  /** A last record no later than the best of the year, or not of that
      year, leaves the best as it was. */
  lemma Mantiene(es: seq<Option<Registro>>, y: int, i: int)
    requires es != [] && MejorDelAnio(es[..|es| - 1], i, y)
    requires DelAnio(es, |es| - 1, y) ==> !Posterior(FechaDe(es, |es| - 1), FechaDe(es, i))
    ensures MejorDelAnio(es, i, y)
  {
    var n := |es| - 1;
    var ant := es[..n];
    assert ant[i] == es[i];
    forall j | 0 <= j < |es| && DelAnio(es, j, y)
      ensures !Posterior(FechaDe(es, j), FechaDe(es, i))
      ensures j < i ==> FechaDe(es, j) != FechaDe(es, i)
    {
      if j < n {
        assert ant[j] == es[j];
        assert DelAnio(ant, j, y);
        assert FechaDe(ant, j) == FechaDe(es, j);
      }
    }
  }

  /** `obtener_año_mas_reciente` gives None exactly when no key carries a
      date `strptime` accepts. */
  lemma NingunaFecha(claves: seq<string>)
    ensures AnioMasReciente(claves).None? <==> forall j :: 0 <= j < |claves| ==> Entrada(claves[j]).None?
  {
    var es := Entradas(claves);
    var d := Anios(es);
    if d == [] {
      forall j | 0 <= j < |claves| ensures Entrada(claves[j]).None? {
        var y := if Fechada(es, j) then FechaDe(es, j).anio else 0;
        AniosPorAnio(es, y);
        assert !HasKey(d, y);
        assert !DelAnio(es, j, y);
      }
    } else {
      AniosPorAnio(es, d[0].0);
      assert HasKey(d, d[0].0);
    }
  }

  /** Otherwise it gives "TIPO-YYYY-MM-DD" of the first key holding the
      latest date of all: the greatest year, then the latest date in it. */
  lemma MasReciente(claves: seq<string>)
    requires AnioMasReciente(claves).Some?
    ensures exists i :: MejorGlobal(Entradas(claves), i) && AnioMasReciente(claves) == Some(Base(Entrada(claves[i]).value))
  {
    var es := Entradas(claves);
    var d := Anios(es);
    var y := MaxClave(d);
    AniosPorAnio(es, y);
    var i :| MejorDelAnio(es, i, y) && Get(d, y) == es[i];
    forall j | 0 <= j < |es| && Fechada(es, j)
      ensures FechaDe(es, j).anio <= y
    {
      AniosPorAnio(es, FechaDe(es, j).anio);
      assert DelAnio(es, j, FechaDe(es, j).anio);
      assert HasKey(d, FechaDe(es, j).anio);
    }
    assert MejorGlobal(es, i);
  }

  /** Only one record is the first to hold the latest date. */
  lemma MejorGlobalUnico(es: seq<Option<Registro>>, i: int, k: int)
    requires MejorGlobal(es, i) && MejorGlobal(es, k)
    ensures i == k
  {
    PosteriorTotal(FechaDe(es, i), FechaDe(es, k));
  }

  // -------------------------------------------------------- the key format

  /** The key "TIPO-YYYY-MM-DD" of a valid date is read as that date and
      type, and is given back unchanged. */
  lemma ClaveIso(tipo: string, f: Fecha)
    requires '-' !in tipo && Valida(f) && f.anio >= 1000
    ensures var clave := tipo + "-" + (NatToString(f.anio) + "-" + TwoDigits(f.mes) + "-" + TwoDigits(f.dia));
      Entrada(clave) == Some(Registro(f, tipo, NatToString(f.anio) + "-" + TwoDigits(f.mes) + "-" + TwoDigits(f.dia))) &&
      Base(Entrada(clave).value) == clave
  {
    var a := NatToString(f.anio);
    var m := TwoDigits(f.mes);
    var dd := TwoDigits(f.dia);
    DigitsExclude(a, '-');
    DigitsExclude(m, '-');
    DigitsExclude(dd, '-');
    CuatroCampos(tipo, a, m, dd);
    StrptimeIso(f);
  }

  /** Four fields without '-', joined by '-', split back into themselves. */
  lemma CuatroCampos(t: string, a: string, m: string, d: string)
    requires '-' !in t && '-' !in a && '-' !in m && '-' !in d
    ensures Split(t + "-" + (a + "-" + m + "-" + d), '-') == [t, a, m, d]
  {
    var s3 := m + ['-'] + d;
    SplitHead(m, '-', d);
    assert Split(s3, '-') == [m, d];
    var s2 := a + ['-'] + s3;
    SplitHead(a, '-', s3);
    assert Split(s2, '-') == [a, m, d];
    assert a + "-" + m + "-" + d == s2;
    SplitHead(t, '-', s2);
    assert t + "-" + s2 == t + ['-'] + s2;
  }
}
