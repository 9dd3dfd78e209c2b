/** The data of the financial-ratio sheets
    (auditoria/processors/excel/ratios_financieros/data_extraction.py): the
    distinct annual dates of the balances, and the classification of the
    annual balances of two chosen dates into six buckets, by section and,
    for assets and liabilities, by current or non-current account type. */
module Ratios {
  import opened Wrappers
  import opened Text
  import opened PyDict
  import Lex

  // ------------------------------------------------------------ annual dates

  /** The date "YYYY-MM-DD" of a key "ANUAL-YYYY-MM-DD-…" with four '-'
      fields at least. */
  function FechaAnual(clave: string): Option<string> {
    var p := Split(clave, '-');
    if |p| >= 4 && p[0] == "ANUAL" then Some(p[1] + "-" + p[2] + "-" + p[3]) else None
  }

  /** The dates the loop adds to the set, in order. */
  function FechasHalladas(claves: seq<string>): seq<string> {
    if claves == [] then []
    else
      var previas := FechasHalladas(claves[..|claves| - 1]);
      match FechaAnual(claves[|claves| - 1])
      case Some(f) => previas + [f]
      case None => previas
  }

  /** `extraer_fechas_anuales`: the loop fills a set, which is then sorted. */
  method ExtraerFechasAnuales(balances: Dict<string, real>) returns (r: seq<string>)
    ensures r == Lex.SortedSet(FechasHalladas(Keys(balances)))
  {
    ghost var claves := Keys(balances);
    var fechas: seq<string> := [];
    for i := 0 to |balances|
      invariant fechas == FechasHalladas(claves[..i])
    {
      assert claves[..i + 1][..i] == claves[..i];
      var f := FechaAnual(balances[i].0);
      if f.Some? {
        fechas := fechas + [f.value];
      }
    }
    assert claves[..|balances|] == claves;
    r := Lex.SortedSet(fechas);
  }

  lemma {:induction false} FechasHalladasEs(claves: seq<string>, f: string)
    ensures f in FechasHalladas(claves) <==> exists i :: 0 <= i < |claves| && FechaAnual(claves[i]) == Some(f)
  {
    if claves != [] {
      var n := |claves| - 1;
      FechasHalladasEs(claves[..n], f);
      if exists i :: 0 <= i < |claves| && FechaAnual(claves[i]) == Some(f) {
        var i :| 0 <= i < |claves| && FechaAnual(claves[i]) == Some(f);
        if i < n {
          assert claves[..n][i] == claves[i];
        }
      }
      if exists i :: 0 <= i < n && FechaAnual(claves[..n][i]) == Some(f) {
        var i :| 0 <= i < n && FechaAnual(claves[..n][i]) == Some(f);
        assert claves[i] == claves[..n][i];
      }
    }
  }

  /** The annual dates are sorted without repeats, and are exactly the
      dates of the annual keys. */
  lemma FechasAnualesEs(balances: Dict<string, real>)
    ensures var r := Lex.SortedSet(FechasHalladas(Keys(balances)));
      Lex.StrictlySorted(r) &&
      forall f :: f in r <==> exists i :: 0 <= i < |balances| && FechaAnual(balances[i].0) == Some(f)
  {
    forall f ensures f in FechasHalladas(Keys(balances)) <==> exists i :: 0 <= i < |balances| && FechaAnual(balances[i].0) == Some(f) {
      FechasHalladasEs(Keys(balances), f);
    }
  }

  /** A key whose first fields are "ANUAL" and a date gives that date. */
  lemma FechaDeClave(partes: seq<string>)
    requires |partes| >= 4 && partes[0] == "ANUAL"
    requires forall i :: 0 <= i < |partes| ==> '-' !in partes[i]
    ensures FechaAnual(Join(partes, "-")) == Some(partes[1] + "-" + partes[2] + "-" + partes[3])
  {
    SplitJoin(partes, '-');
  }

  // ---------------------------------------------------------- classification

  /** The six buckets, in this order. */
  const ActivoCorriente := 0
  const ActivoNoCorriente := 1
  const PasivoCorriente := 2
  const PasivoNoCorriente := 3
  const Patrimonio := 4
  const Resultados := 5

  /** A bucket: date → account → value, holding both chosen dates. */
  type Cubeta = map<string, Dict<string, real>>

  /** The bucket of a section and account type: assets and liabilities by
      their type "Corriente" or "No Corriente", equity and the income
      statement whatever the type; nothing for any other section. */
  function CubetaDe(seccion: string, tipo: Option<string>): (k: Option<nat>)
    ensures k.Some? ==> k.value <= Resultados
    ensures seccion == "Patrimonio" ==> k == Some(Patrimonio)
    ensures seccion == "ESTADO DE RESULTADOS" ==> k == Some(Resultados)
    ensures seccion == "Activo" || seccion == "Pasivo" ==>
      (k.Some? <==> tipo == Some("Corriente") || tipo == Some("No Corriente"))
    ensures seccion !in ["Activo", "Pasivo", "Patrimonio", "ESTADO DE RESULTADOS"] ==> k.None?
  {
    if seccion == "Activo" || seccion == "Pasivo" then
      var base := if seccion == "Activo" then ActivoCorriente else PasivoCorriente;
      if tipo == Some("Corriente") then Some(base)
      else if tipo == Some("No Corriente") then Some(base + 1)
      else None
    else if seccion == "Patrimonio" then Some(Patrimonio)
    else if seccion == "ESTADO DE RESULTADOS" then Some(Resultados)
    else None
  }

  /** Where the loop puts a key "ANUAL-YYYY-MM-DD-SECCION-CUENTA[-TIPO…]",
      with the account type read only when there is a seventh field:
      (bucket, date, account). Keys of other dates are skipped. */
  function Destino(clave: string, actual: string, anterior: string): (r: Option<(nat, string, string)>)
    ensures r.Some? ==>
      var p := Split(clave, '-');
      |p| >= 6 && p[0] == "ANUAL" && r.value.0 <= Resultados &&
      r.value.1 == p[1] + "-" + p[2] + "-" + p[3] && (r.value.1 == actual || r.value.1 == anterior) &&
      r.value.2 == p[5]
  {
    var p := Split(clave, '-');
    if |p| >= 6 && p[0] == "ANUAL" then
      var fecha := p[1] + "-" + p[2] + "-" + p[3];
      if fecha != actual && fecha != anterior then None
      else
        match CubetaDe(p[4], if |p| >= 7 then Some(p[6]) else None)
        case Some(k) => Some((k, fecha, p[5]))
        case None => None
    else None
  }

  /** The same step as the code reads it: a key with exactly six fields of
      a chosen date reads a seventh field that does not exist and raises
      IndexError. */
  function DestinoComoEscrito(clave: string, actual: string, anterior: string): Result<Option<(nat, string, string)>, string> {
    var p := Split(clave, '-');
    if |p| >= 6 && p[0] == "ANUAL" then
      var fecha := p[1] + "-" + p[2] + "-" + p[3];
      if fecha != actual && fecha != anterior then Ok(None)
      else if |p| < 7 then Err("IndexError")
      else
        match CubetaDe(p[4], Some(p[6]))
        case Some(k) => Ok(Some((k, fecha, p[5])))
        case None => Ok(None)
    else Ok(None)
  }

  /** The key of an equity account without an account type raises
      IndexError as written, though equity ignores the type. */
  lemma SeisCamposFalla(anio: string, mes: string, dia: string, cuenta: string, anterior: string)
    requires '-' !in anio && '-' !in mes && '-' !in dia && '-' !in cuenta
    ensures var clave := Join(["ANUAL", anio, mes, dia, "Patrimonio", cuenta], "-");
      var fecha := anio + "-" + mes + "-" + dia;
      DestinoComoEscrito(clave, fecha, anterior).Err? &&
      Destino(clave, fecha, anterior) == Some((Patrimonio, fecha, cuenta))
  {
    SplitJoin(["ANUAL", anio, mes, dia, "Patrimonio", cuenta], '-');
  }

  /** Wherever the code as written does not raise, it agrees with the
      corrected step; it raises only on six-field keys of a chosen date. */
  lemma ComoEscritoCorregido(clave: string, actual: string, anterior: string)
    ensures DestinoComoEscrito(clave, actual, anterior).Ok? ==>
      DestinoComoEscrito(clave, actual, anterior).value == Destino(clave, actual, anterior)
    ensures DestinoComoEscrito(clave, actual, anterior).Err? <==>
      var p := Split(clave, '-');
      |p| == 6 && p[0] == "ANUAL" && (p[1] + "-" + p[2] + "-" + p[3] == actual || p[1] + "-" + p[2] + "-" + p[3] == anterior)
  {
  }

  /** The assignments `estructura[…][fecha][cuenta] = valor` the loop makes
      to bucket `k` at date `fecha`, in order. */
  function Pares(balances: Dict<string, real>, actual: string, anterior: string, k: nat, fecha: string): seq<(string, real)> {
    if balances == [] then []
    else
      var (clave, valor) := balances[|balances| - 1];
      var previos := Pares(balances[..|balances| - 1], actual, anterior, k, fecha);
      match Destino(clave, actual, anterior)
      case Some((k', fecha', cuenta)) => if k' == k && fecha' == fecha then previos + [(cuenta, valor)] else previos
      case None => previos
  }

  /** A bucket after the loop: both chosen dates, each with its accounts. */
  function CubetaFinal(balances: Dict<string, real>, actual: string, anterior: string, k: nat): Cubeta {
    map[actual := FromPairs(Pares(balances, actual, anterior, k, actual)),
        anterior := FromPairs(Pares(balances, actual, anterior, k, anterior))]
  }

  /** `estructura` after the loop, bucket by bucket. */
  function Clasificacion(balances: Dict<string, real>, actual: string, anterior: string): (est: seq<Cubeta>)
    ensures |est| == 6
    ensures forall k :: 0 <= k < 6 ==> actual in est[k] && anterior in est[k]
  {
    seq(6, k requires 0 <= k < 6 => CubetaFinal(balances, actual, anterior, k))
  }

  /** The empty buckets the loop starts from. */
  function Vacia(actual: string, anterior: string): Cubeta {
    map[actual := [], anterior := []]
  }

  /** `clasificar_cuentas_por_seccion_y_tipo`, with the corrected account
      type read. */
  method ClasificarCuentas(balances: Dict<string, real>, actual: string, anterior: string) returns (est: seq<Cubeta>)
    ensures est == Clasificacion(balances, actual, anterior)
  {
    var v := Vacia(actual, anterior);
    est := [v, v, v, v, v, v];
    for i := 0 to |balances|
      invariant |est| == 6
      invariant forall k :: 0 <= k < 6 ==> est[k] == CubetaFinal(balances[..i], actual, anterior, k)
    {
      assert balances[..i + 1][..i] == balances[..i];
      var (clave, valor) := balances[i];
      var d := Destino(clave, actual, anterior);
      ghost var antes := est;
      if d.Some? {
        var (k, fecha, cuenta) := d.value;
        est := est[k := est[k][fecha := Put(est[k][fecha], cuenta, valor)]];
      }
      PasoClasificacion(balances[..i], balances[i], actual, anterior, antes, est);
    }
    assert balances[..|balances|] == balances;
    assert forall k :: 0 <= k < 6 ==> est[k] == Clasificacion(balances, actual, anterior)[k];
  }

  lemma ParesSnoc(bs: Dict<string, real>, par: (string, real), actual: string, anterior: string, k: nat, fecha: string)
    ensures var d := Destino(par.0, actual, anterior);
      Pares(bs + [par], actual, anterior, k, fecha) ==
        if d.Some? && d.value.0 == k && d.value.1 == fecha then Pares(bs, actual, anterior, k, fecha) + [(d.value.2, par.1)]
        else Pares(bs, actual, anterior, k, fecha)
  {
    assert (bs + [par])[..|bs|] == bs;
  }

  /** One more key: the bucket and date it is sent to get the assignment,
      every other stays as it was. */
  lemma CubetaSnoc(bs: Dict<string, real>, par: (string, real), actual: string, anterior: string, k: nat)
    ensures var d := Destino(par.0, actual, anterior);
      var c := CubetaFinal(bs, actual, anterior, k);
      CubetaFinal(bs + [par], actual, anterior, k) ==
        if d.Some? && d.value.0 == k then c[d.value.1 := Put(c[d.value.1], d.value.2, par.1)] else c
  {
    var d := Destino(par.0, actual, anterior);
    if d.Some? && d.value.0 == k {
      CubetaAnota(bs, par, actual, anterior, k);
    } else {
      ParesSnoc(bs, par, actual, anterior, k, actual);
      ParesSnoc(bs, par, actual, anterior, k, anterior);
    }
  }

  lemma CubetaAnota(bs: Dict<string, real>, par: (string, real), actual: string, anterior: string, k: nat)
    requires Destino(par.0, actual, anterior).Some? && Destino(par.0, actual, anterior).value.0 == k
    ensures var d := Destino(par.0, actual, anterior).value;
      var c := CubetaFinal(bs, actual, anterior, k);
      CubetaFinal(bs + [par], actual, anterior, k) == c[d.1 := Put(c[d.1], d.2, par.1)]
  {
    var d := Destino(par.0, actual, anterior).value;
    var f := d.1;
    var x := FromPairs(Pares(bs, actual, anterior, k, actual));
    var y := FromPairs(Pares(bs, actual, anterior, k, anterior));
    var c := CubetaFinal(bs, actual, anterior, k);
    assert c == map[actual := x, anterior := y];
    var v := Put(c[f], d.2, par.1);
    ParesSnoc(bs, par, actual, anterior, k, actual);
    ParesSnoc(bs, par, actual, anterior, k, anterior);
    FromPairsSnoc(Pares(bs, actual, anterior, k, f), d.2, par.1);
    ActualizaPar(actual, anterior, x, y, f, v);
  }

  /** Updating one key of a map with two keys. */
  lemma ActualizaPar<V>(a: string, b: string, x: V, y: V, f: string, v: V)
    requires f == a || f == b
    requires a == b ==> x == y
    ensures map[a := x, b := y][f := v] == map[a := if f == a then v else x, b := if f == b then v else y]
  {
  }

  lemma PasoClasificacion(bs: Dict<string, real>, par: (string, real), actual: string, anterior: string,
                          antes: seq<Cubeta>, despues: seq<Cubeta>)
    requires |antes| == 6 && forall k :: 0 <= k < 6 ==> antes[k] == CubetaFinal(bs, actual, anterior, k)
    requires var d := Destino(par.0, actual, anterior);
      if d.None? then despues == antes
      else (d.value.1 in antes[d.value.0] &&
            despues == antes[d.value.0 := antes[d.value.0][d.value.1 := Put(antes[d.value.0][d.value.1], d.value.2, par.1)]])
    ensures |despues| == 6 && forall k :: 0 <= k < 6 ==> despues[k] == CubetaFinal(bs + [par], actual, anterior, k)
  {
    forall k | 0 <= k < 6 ensures despues[k] == CubetaFinal(bs + [par], actual, anterior, k) {
      CubetaSnoc(bs, par, actual, anterior, k);
    }
  }

  /** A pair reaches bucket `k` at `fecha` exactly when some key is sent
      there; within a bucket the last key of an account wins. */
  lemma {:induction false} ParesDe(balances: Dict<string, real>, actual: string, anterior: string, k: nat, fecha: string,
                                   cuenta: string, valor: real)
    ensures (cuenta, valor) in Pares(balances, actual, anterior, k, fecha) <==>
      exists i :: 0 <= i < |balances| && balances[i].1 == valor &&
        Destino(balances[i].0, actual, anterior) == Some((k, fecha, cuenta))
  {
    if balances != [] {
      var n := |balances| - 1;
      var ant := balances[..n];
      ParesDe(ant, actual, anterior, k, fecha, cuenta, valor);
      assert balances == ant + [balances[n]];
      ParesSnoc(ant, balances[n], actual, anterior, k, fecha);
      assert forall i :: 0 <= i < n ==> ant[i] == balances[i];
      if exists i :: 0 <= i < |balances| && balances[i].1 == valor &&
          Destino(balances[i].0, actual, anterior) == Some((k, fecha, cuenta)) {
        var i :| 0 <= i < |balances| && balances[i].1 == valor &&
          Destino(balances[i].0, actual, anterior) == Some((k, fecha, cuenta));
        if i < n {
          assert ant[i] == balances[i];
        }
      }
    }
  }

  /** Looking an account up in a bucket gives the value of the last key sent
      there for it. */
  lemma ClasificacionValores(balances: Dict<string, real>, actual: string, anterior: string, k: nat, fecha: string, cuenta: string)
    requires k < 6 && (fecha == actual || fecha == anterior)
    ensures var d := Clasificacion(balances, actual, anterior)[k][fecha];
      Valid(d) && Get(d, cuenta) == LastValue(Pares(balances, actual, anterior, k, fecha), cuenta)
  {
    GetFromPairs(Pares(balances, actual, anterior, k, fecha), cuenta);
  }
}
