/** Detection for the summary sheets
    (auditoria/processors/excel/sumaria/deteccion.py): the account a file
    name stands for, the values of that account in the balances, and the
    place of the summary table in a worksheet. */
module SumariaDeteccion {
  import opened Wrappers
  import opened Text
  import PyDict
  import Sumaria
  import SemestralDates
  import opened Worksheet

  // ------------------------------------------------ account of a file name

  /** `_MAPEO_CUENTAS`: keyword of a file name, then the account it names. */
  const Mapeo: PyDict.Dict<string, string> := [
    ("CAJA", "Caja y Bancos"), ("BANCO", "Caja y Bancos"),
    ("COBRAR", "Cuentas por Cobrar"), ("CLIENTE", "Cuentas por Cobrar"),
    ("INVENTARIO", "Inventarios"), ("INVERSION", "Inversiones"),
    ("CONSTRUCCION", "Construcciones en Proceso"), ("PROCESO", "Construcciones en Proceso"),
    ("ACTIVO FIJO", "Propiedad, Planta y Equipo"), ("PROPIEDAD", "Propiedad, Planta y Equipo"),
    ("PLANTA", "Propiedad, Planta y Equipo"), ("EQUIPO", "Propiedad, Planta y Equipo"),
    ("INTANGIBLE", "Activo Intangible"), ("PAGAR", "Cuentas por Pagar"),
    ("PROVEEDOR", "Cuentas por Pagar"), ("PASIVO LARGO PLAZO", "Pasivo Largo Plazo"),
    ("PASIVO", "Pasivo"), ("PRESTAMO", "Préstamos por Pagar"),
    ("FINANCIAMIENTO", "Préstamos por Pagar"), ("PATRIMONIO", "Patrimonio"),
    ("CAPITAL", "Capital"), ("RESULTADO", "Estado de Resultados"),
    ("INGRESO", "Ingresos"), ("EGRESO", "Egresos"),
    ("GASTO", "Gastos"), ("COSTO", "Costos")
  ]

  /** Entries ordered by keyword length, longest first. */
  predicate LongestFirst(s: seq<(string, string)>) {
    forall i, j :: 0 <= i < j < |s| ==> |s[i].0| >= |s[j].0|
  }

  /** The entries of `Mapeo` in the order `sorted(_MAPEO_CUENTAS, key=len,
      reverse=True)` gives their keywords: longest first, keywords of equal
      length in map order (Python's sort is stable). */
  const Orden: seq<(string, string)> := [
    ("PASIVO LARGO PLAZO", "Pasivo Largo Plazo"),
    ("FINANCIAMIENTO", "Préstamos por Pagar"),
    ("CONSTRUCCION", "Construcciones en Proceso"),
    ("ACTIVO FIJO", "Propiedad, Planta y Equipo"),
    ("INVENTARIO", "Inventarios"), ("INTANGIBLE", "Activo Intangible"), ("PATRIMONIO", "Patrimonio"),
    ("INVERSION", "Inversiones"), ("PROPIEDAD", "Propiedad, Planta y Equipo"),
    ("PROVEEDOR", "Cuentas por Pagar"), ("RESULTADO", "Estado de Resultados"),
    ("PRESTAMO", "Préstamos por Pagar"),
    ("CLIENTE", "Cuentas por Cobrar"), ("PROCESO", "Construcciones en Proceso"),
    ("CAPITAL", "Capital"), ("INGRESO", "Ingresos"),
    ("COBRAR", "Cuentas por Cobrar"), ("PLANTA", "Propiedad, Planta y Equipo"),
    ("EQUIPO", "Propiedad, Planta y Equipo"), ("PASIVO", "Pasivo"), ("EGRESO", "Egresos"),
    ("BANCO", "Caja y Bancos"), ("PAGAR", "Cuentas por Pagar"), ("GASTO", "Gastos"), ("COSTO", "Costos"),
    ("CAJA", "Caja y Bancos")
  ]

  /** A sequence whose neighbours are ordered by keyword length is ordered
      throughout. */
  lemma {:induction false} ChainOrdered(s: seq<(string, string)>)
    requires forall i :: 0 <= i < |s| - 1 ==> |s[i].0| >= |s[i + 1].0|
    ensures LongestFirst(s)
  {
    if |s| > 1 {
      ChainOrdered(s[1..]);
      forall j | 1 <= j < |s| ensures |s[0].0| >= |s[j].0| {
        if j > 1 {
          assert s[1..][j - 1] == s[j] && s[1..][0] == s[1];
        }
      }
      forall i, j | 1 <= i < j < |s| ensures |s[i].0| >= |s[j].0| {
        assert s[1..][i - 1] == s[i] && s[1..][j - 1] == s[j];
      }
    }
  }

  /** `Orden` holds the entries of the map, longest keyword first. */
  lemma OrdenSorted()
    ensures |Orden| == |Mapeo| && forall e :: e in Orden <==> e in Mapeo
    ensures LongestFirst(Orden)
  {
    OrdenEntries();
    OrdenNeighbours();
    ChainOrdered(Orden);
  }

  lemma OrdenEntries()
    ensures |Orden| == |Mapeo| && forall e :: e in Orden <==> e in Mapeo
  {
  }

  lemma OrdenNeighbours()
    ensures forall i :: 0 <= i < |Orden| - 1 ==> |Orden[i].0| >= |Orden[i + 1].0|
  {
  }

  /** The first hit in a list ordered longest first is a longest hit. */
  lemma FirstHitLongest(u: string, ks: seq<(string, string)>)
    requires LongestFirst(ks) && KeywordHit(u, ks).Some?
    ensures forall j :: 0 <= j < |ks| && |ks[j].0| > |ks[KeywordHit(u, ks).value].0| ==> !Contains(u, ks[j].0)
  {
  }

  /** The first entry whose keyword occurs in `u`. */
  function KeywordHit(u: string, ks: seq<(string, string)>): (r: Option<nat>)
    ensures r.Some? ==> r.value < |ks| && Contains(u, ks[r.value].0)
    ensures r.Some? ==> forall j :: 0 <= j < r.value ==> !Contains(u, ks[j].0)
    ensures r.None? ==> forall j :: 0 <= j < |ks| ==> !Contains(u, ks[j].0)
  {
    if ks == [] then None
    else if Contains(u, ks[0].0) then Some(0)
    else
      var r := KeywordHit(u, ks[1..]);
      assert forall j :: 1 <= j < |ks| ==> ks[1..][j - 1] == ks[j];
      if r.None? then None else Some(r.value + 1)
  }

  /** `re.sub(r"^\d+\s*", "", s)`: leading digits and the blanks after them
      are removed. */
  function QuitarNumero(s: string): (r: string)
    ensures s == [] || !IsDigit(s[0]) ==> r == s
    ensures EndsWith(s, r)
  {
    if s == [] || !IsDigit(s[0]) then s
    else
      var n := DigitRun(s);
      var t := TrimLeft(s[n..]);
      assert s[|s| - |t|..] == t;
      t
  }

  /** The number of ASCII digits `s` starts with. */
  function DigitRun(s: string): (n: nat)
    ensures n <= |s| && (forall i :: 0 <= i < n ==> IsDigit(s[i])) && (n < |s| ==> !IsDigit(s[n]))
  {
    if s != [] && IsDigit(s[0]) then 1 + DigitRun(s[1..]) else 0
  }

  /** "SUMARIA" followed by a blank starts at position `i`. */
  predicate SumariaAt(u: string, i: nat) {
    i + 8 <= |u| && u[i..i + 7] == "SUMARIA" && IsSpace(u[i + 7])
  }

  /** The leftmost position from `i` on where "SUMARIA" and a blank start. */
  function FirstSumaria(u: string, i: nat): (r: Option<nat>)
    ensures r.Some? ==> i <= r.value && SumariaAt(u, r.value)
    ensures r.Some? ==> forall j :: i <= j < r.value ==> !SumariaAt(u, j)
    ensures r.None? ==> forall j :: i <= j ==> !SumariaAt(u, j)
    decreases |u| - i
  {
    if i + 8 > |u| then None
    else if SumariaAt(u, i) then Some(i)
    else FirstSumaria(u, i + 1)
  }

  /** `re.search(r"SUMARIA\s+(.*?)(?:\s+|$)", u)` and its group, title-cased:
      the word that follows the first "SUMARIA" and its blanks, which is
      empty when only blanks follow. */
  function Fallback(u: string): (r: Option<string>)
    ensures r.None? <==> forall j :: !SumariaAt(u, j)
  {
    match FirstSumaria(u, 0)
    case None => None
    case Some(i) =>
      var rest := TrimLeft(u[i + 7..]);
      Some(Title(rest[..WordLength(rest)]))
  }

  /** `determinar_cuenta_por_nombre_archivo`: ".xlsx" and a leading number
      are removed from the name; the account of the longest keyword found in
      the upper-cased name is returned, else the word after "SUMARIA",
      else nothing. */
  function DeterminarCuenta(fileName: string): (r: Option<string>)
  {
    var u := Upper(QuitarNumero(ReplaceAll(fileName, ".xlsx", "")));
    match KeywordHit(u, Orden)
    case Some(i) => Some(Orden[i].1)
    case None => Fallback(u)
  }

  /** A name holding some keyword yields the account of a keyword it holds,
      and holds no keyword longer than that one; a name holding none falls
      back to the word after "SUMARIA". */
  lemma DeterminarLongest(fileName: string)
    ensures var u := Upper(QuitarNumero(ReplaceAll(fileName, ".xlsx", "")));
      var r := DeterminarCuenta(fileName);
      ((exists e :: e in Mapeo && Contains(u, e.0)) ==>
         exists e :: e in Mapeo && Contains(u, e.0) && r == Some(e.1) &&
           forall e' :: e' in Mapeo && |e'.0| > |e.0| ==> !Contains(u, e'.0)) &&
      ((forall e :: e in Mapeo ==> !Contains(u, e.0)) ==> r == Fallback(u))
  {
    var u := Upper(QuitarNumero(ReplaceAll(fileName, ".xlsx", "")));
    OrdenSorted();
    var hit := KeywordHit(u, Orden);
    if hit.Some? {
      FirstHitLongest(u, Orden);
      var e := Orden[hit.value];
      forall e' | e' in Mapeo && |e'.0| > |e.0| ensures !Contains(u, e'.0) {
        var j :| 0 <= j < |Orden| && Orden[j] == e';
      }
      assert e in Mapeo;
    } else {
      forall e | e in Mapeo ensures !Contains(u, e.0) {
        var j :| 0 <= j < |Orden| && Orden[j] == e;
      }
    }
  }

  /** "PASIVO LARGO PLAZO" is the longest keyword, so it wins over "PASIVO". */
  lemma DeterminarPasivoLargoPlazo(fileName: string)
    requires Contains(Upper(QuitarNumero(ReplaceAll(fileName, ".xlsx", ""))), "PASIVO LARGO PLAZO")
    ensures DeterminarCuenta(fileName) == Some("Pasivo Largo Plazo")
  {
    assert Orden[0] == ("PASIVO LARGO PLAZO", "Pasivo Largo Plazo");
  }

  // ------------------------------------------ the account in the balances

  type Balances = PyDict.Dict<string, real>

  const Secciones: seq<string> := ["Activo", "Pasivo", "Patrimonio", "ESTADO DE RESULTADOS"]

  function ClaveExacta(fecha: string, seccion: string, cuenta: string): string {
    "SEMESTRAL-" + fecha + "-" + seccion + "-" + cuenta
  }

  function Prefijo(fecha: string, seccion: string): string {
    "SEMESTRAL-" + fecha + "-" + seccion + "-"
  }

  /** How the partial comparison names the account of a key: from the
      fourth '-' field on, as the code does, or as the text after the
      prefix of the date and section. */
  datatype Regla = DesdeCuartoCampo | TrasPrefijo

  /** The lower-cased, trimmed name the partial comparison uses for `clave`. */
  function NombreCuenta(clave: string, prefijo: string, regla: Regla): string {
    match regla
    case DesdeCuartoCampo =>
      var partes := Split(clave, '-');
      Sumaria.Normalize(Join(if |partes| >= 3 then partes[3..] else [], "-"))
    case TrasPrefijo =>
      Sumaria.Normalize(if StartsWith(clave, prefijo) then clave[|prefijo|..] else clave)
  }

  /** `clave` starts with the prefix and its name and the account's contain
      one another. */
  predicate Parcial(clave: string, prefijo: string, cuentaNormalizada: string, regla: Regla) {
    StartsWith(clave, prefijo) && Sumaria.Related(cuentaNormalizada, NombreCuenta(clave, prefijo, regla))
  }

  /** The first key, in iteration order, that matches partially. */
  function PrimeraParcial(b: Balances, prefijo: string, cuentaNormalizada: string, regla: Regla): (r: Option<nat>)
    ensures r.Some? ==> r.value < |b| && Parcial(b[r.value].0, prefijo, cuentaNormalizada, regla)
    ensures r.Some? ==> forall k :: 0 <= k < r.value ==> !Parcial(b[k].0, prefijo, cuentaNormalizada, regla)
    ensures r.None? ==> forall k :: 0 <= k < |b| ==> !Parcial(b[k].0, prefijo, cuentaNormalizada, regla)
  {
    if b == [] then None
    else if Parcial(b[0].0, prefijo, cuentaNormalizada, regla) then Some(0)
    else
      var r := PrimeraParcial(b[1..], prefijo, cuentaNormalizada, regla);
      assert forall k :: 1 <= k < |b| ==> b[1..][k - 1] == b[k];
      if r.None? then None else Some(r.value + 1)
  }

  /** The flag and the values by date. */
  datatype Estado = Estado(existe: bool, datos: PyDict.Dict<string, real>)

  /** One pass of the inner loop, for one section and one date: the exact
      key wins; a date without a value yet takes the first partial match. */
  function Paso(b: Balances, cuenta: string, seccion: string, fecha: string, regla: Regla, st: Estado): Estado {
    match PyDict.Get(b, ClaveExacta(fecha, seccion, cuenta))
    case Some(v) => Estado(true, PyDict.Put(st.datos, fecha, v))
    case None =>
      if PyDict.HasKey(st.datos, fecha) then st
      else
        match PrimeraParcial(b, Prefijo(fecha, seccion), Sumaria.Normalize(cuenta), regla)
        case None => st
        case Some(i) => Estado(true, PyDict.Put(st.datos, fecha, b[i].1))
  }

  /** The inner loop over the dates. */
  function TrasFechas(b: Balances, cuenta: string, seccion: string, fechas: seq<string>, regla: Regla, st: Estado): Estado {
    if fechas == [] then st
    else Paso(b, cuenta, seccion, fechas[|fechas| - 1], regla, TrasFechas(b, cuenta, seccion, fechas[..|fechas| - 1], regla, st))
  }

  /** The outer loop over the sections. */
  function TrasSecciones(b: Balances, cuenta: string, secciones: seq<string>, fechas: seq<string>, regla: Regla, st: Estado): Estado {
    if secciones == [] then st
    else TrasFechas(b, cuenta, secciones[|secciones| - 1], fechas, regla, TrasSecciones(b, cuenta, secciones[..|secciones| - 1], fechas, regla, st))
  }

  /** `verificar_cuenta_en_balances` under a naming rule. */
  function Verificar(b: Balances, cuenta: string, fechas: seq<string>, regla: Regla): Estado {
    TrasSecciones(b, cuenta, Secciones, fechas, regla, Estado(false, []))
  }

  /** The partial search: the first key that starts with the prefix and
      whose name relates to the account. */
  method BuscarParcial(balances: Balances, prefijo: string, cuentaNormalizada: string) returns (r: Option<nat>)
    ensures r == PrimeraParcial(balances, prefijo, cuentaNormalizada, DesdeCuartoCampo)
  {
    r := None;
    var i := 0;
    while i < |balances|
      invariant 0 <= i <= |balances|
      invariant SinParcial(balances, i, prefijo, cuentaNormalizada)
    {
      var clave := balances[i].0;
      if StartsWith(clave, prefijo) {
        var nombreCuenta := NombreCuenta(clave, prefijo, DesdeCuartoCampo);
        if Sumaria.Related(cuentaNormalizada, nombreCuenta) {
          PrimeraParcialEn(balances, i, prefijo, cuentaNormalizada);
          r := Some(i);
          return;
        }
      }
      SinParcialNext(balances, i, prefijo, cuentaNormalizada);
      i := i + 1;
    }
    NingunaParcial(balances, prefijo, cuentaNormalizada);
  }

  /** No key before position `n` matches partially under the code's rule. */
  predicate SinParcial(b: Balances, n: nat, prefijo: string, cuentaNormalizada: string)
    requires n <= |b|
  {
    forall k :: 0 <= k < n ==> !Parcial(b[k].0, prefijo, cuentaNormalizada, DesdeCuartoCampo)
  }

  lemma SinParcialNext(b: Balances, n: nat, prefijo: string, cuentaNormalizada: string)
    requires n < |b| && SinParcial(b, n, prefijo, cuentaNormalizada)
    requires !Parcial(b[n].0, prefijo, cuentaNormalizada, DesdeCuartoCampo)
    ensures SinParcial(b, n + 1, prefijo, cuentaNormalizada)
  {
  }

  /** The first partial match after none is the one `PrimeraParcial` finds. */
  lemma PrimeraParcialEn(b: Balances, n: nat, prefijo: string, cuentaNormalizada: string)
    requires n < |b| && SinParcial(b, n, prefijo, cuentaNormalizada)
    requires Parcial(b[n].0, prefijo, cuentaNormalizada, DesdeCuartoCampo)
    ensures PrimeraParcial(b, prefijo, cuentaNormalizada, DesdeCuartoCampo) == Some(n)
  {
  }

  lemma NingunaParcial(b: Balances, prefijo: string, cuentaNormalizada: string)
    requires SinParcial(b, |b|, prefijo, cuentaNormalizada)
    ensures PrimeraParcial(b, prefijo, cuentaNormalizada, DesdeCuartoCampo) == None
  {
  }

  /** One pass of the inner loop, for one section and one date. */
  method PasoEn(balances: Balances, cuentaAsociada: string, cuentaNormalizada: string, seccion: string, fecha: string,
                existe: bool, datos: PyDict.Dict<string, real>)
    returns (cuentaExiste: bool, datosCuenta: PyDict.Dict<string, real>)
    requires cuentaNormalizada == Sumaria.Normalize(cuentaAsociada)
    ensures Estado(cuentaExiste, datosCuenta) == Paso(balances, cuentaAsociada, seccion, fecha, DesdeCuartoCampo, Estado(existe, datos))
  {
    cuentaExiste, datosCuenta := existe, datos;
    var exacta := PyDict.Get(balances, ClaveExacta(fecha, seccion, cuentaAsociada));
    if exacta.Some? {
      datosCuenta := PyDict.Put(datosCuenta, fecha, exacta.value);
      cuentaExiste := true;
      return;
    }
    if PyDict.Get(datosCuenta, fecha).None? {
      var hallada := BuscarParcial(balances, Prefijo(fecha, seccion), cuentaNormalizada);
      if hallada.Some? {
        datosCuenta := PyDict.Put(datosCuenta, fecha, balances[hallada.value].1);
        cuentaExiste := true;
      }
    }
  }

  /** `verificar_cuenta_en_balances`: for each section and each date, the
      exact key's value, or else, for a date without a value yet, the value
      of the first key of that date and section whose name relates to the
      account; the flag records that some value was found. */
  method VerificarCuentaEnBalances(balances: Balances, cuentaAsociada: string, fechasSemestrales: seq<string>)
    returns (cuentaExiste: bool, datosCuenta: PyDict.Dict<string, real>)
    ensures Estado(cuentaExiste, datosCuenta) == Verificar(balances, cuentaAsociada, fechasSemestrales, DesdeCuartoCampo)
  {
    var cuentaNormalizada := Sumaria.Normalize(cuentaAsociada);
    cuentaExiste, datosCuenta := SeccionesEn(balances, cuentaAsociada, cuentaNormalizada, Secciones, fechasSemestrales);
  }

  /** The outer loop, over the sections, from no value found. */
  method SeccionesEn(balances: Balances, cuentaAsociada: string, cuentaNormalizada: string, secciones: seq<string>,
                     fechasSemestrales: seq<string>)
    returns (cuentaExiste: bool, datosCuenta: PyDict.Dict<string, real>)
    requires cuentaNormalizada == Sumaria.Normalize(cuentaAsociada)
    ensures Estado(cuentaExiste, datosCuenta) == TrasSecciones(balances, cuentaAsociada, secciones, fechasSemestrales, DesdeCuartoCampo, Estado(false, []))
  {
    datosCuenta := [];
    cuentaExiste := false;
    for s := 0 to |secciones|
      invariant Estado(cuentaExiste, datosCuenta) == TrasSecciones(balances, cuentaAsociada, secciones[..s], fechasSemestrales, DesdeCuartoCampo, Estado(false, []))
    {
      assert secciones[..s + 1][..s] == secciones[..s];
      cuentaExiste, datosCuenta := FechasEn(balances, cuentaAsociada, cuentaNormalizada, secciones[s], fechasSemestrales, cuentaExiste, datosCuenta);
    }
    assert secciones[..|secciones|] == secciones;
  }

  /** The inner loop, over the dates, for one section. */
  method FechasEn(balances: Balances, cuentaAsociada: string, cuentaNormalizada: string, seccion: string,
                  fechasSemestrales: seq<string>, existe: bool, datos: PyDict.Dict<string, real>)
    returns (cuentaExiste: bool, datosCuenta: PyDict.Dict<string, real>)
    requires cuentaNormalizada == Sumaria.Normalize(cuentaAsociada)
    ensures Estado(cuentaExiste, datosCuenta) == TrasFechas(balances, cuentaAsociada, seccion, fechasSemestrales, DesdeCuartoCampo, Estado(existe, datos))
  {
    cuentaExiste, datosCuenta := existe, datos;
    for j := 0 to |fechasSemestrales|
      invariant Estado(cuentaExiste, datosCuenta) == TrasFechas(balances, cuentaAsociada, seccion, fechasSemestrales[..j], DesdeCuartoCampo, Estado(existe, datos))
    {
      var fecha := fechasSemestrales[j];
      assert fechasSemestrales[..j + 1][..j] == fechasSemestrales[..j];
      cuentaExiste, datosCuenta := PasoEn(balances, cuentaAsociada, cuentaNormalizada, seccion, fecha, cuentaExiste, datosCuenta);
    }
    assert fechasSemestrales[..|fechasSemestrales|] == fechasSemestrales;
  }

  // ------------------------------------- what the flag and the values mean

  /** The flag is set exactly when some value was recorded. */
  predicate Consistente(st: Estado) {
    st.existe <==> st.datos != []
  }

  lemma PasoConsistente(b: Balances, cuenta: string, seccion: string, fecha: string, regla: Regla, st: Estado)
    requires Consistente(st)
    ensures Consistente(Paso(b, cuenta, seccion, fecha, regla, st))
  {
    forall v: real ensures PyDict.Put(st.datos, fecha, v) != [] {
      PyDict.GetPut(st.datos, fecha, v, fecha);
    }
  }

  lemma {:induction false} TrasFechasConsistente(b: Balances, cuenta: string, seccion: string, fechas: seq<string>, regla: Regla, st: Estado)
    requires Consistente(st)
    ensures Consistente(TrasFechas(b, cuenta, seccion, fechas, regla, st))
  {
    if fechas != [] {
      TrasFechasConsistente(b, cuenta, seccion, fechas[..|fechas| - 1], regla, st);
      PasoConsistente(b, cuenta, seccion, fechas[|fechas| - 1], regla, TrasFechas(b, cuenta, seccion, fechas[..|fechas| - 1], regla, st));
    }
  }

  lemma {:induction false} TrasSeccionesConsistente(b: Balances, cuenta: string, secciones: seq<string>, fechas: seq<string>, regla: Regla, st: Estado)
    requires Consistente(st)
    ensures Consistente(TrasSecciones(b, cuenta, secciones, fechas, regla, st))
  {
    if secciones != [] {
      TrasSeccionesConsistente(b, cuenta, secciones[..|secciones| - 1], fechas, regla, st);
      TrasFechasConsistente(b, cuenta, secciones[|secciones| - 1], fechas, regla, TrasSecciones(b, cuenta, secciones[..|secciones| - 1], fechas, regla, st));
    }
  }

  /** `cuenta_existe` is true exactly when some date has a value. */
  lemma VerificarExiste(b: Balances, cuenta: string, fechas: seq<string>, regla: Regla)
    ensures Verificar(b, cuenta, fechas, regla).existe <==> Verificar(b, cuenta, fechas, regla).datos != []
  {
    TrasSeccionesConsistente(b, cuenta, Secciones, fechas, regla, Estado(false, []));
  }

  /** `v` is the value of a key for `fecha` and one of the sections: the
      account's exact key, or a key of that date and section that matches
      partially. */
  ghost predicate Justificado(b: Balances, cuenta: string, fecha: string, regla: Regla, v: real) {
    exists s, i :: 0 <= s < |Secciones| && 0 <= i < |b| && b[i].1 == v &&
      (b[i].0 == ClaveExacta(fecha, Secciones[s], cuenta) ||
       Parcial(b[i].0, Prefijo(fecha, Secciones[s]), Sumaria.Normalize(cuenta), regla))
  }

  /** Every recorded date is one of the requested dates and its value is
      justified by a key. */
  ghost predicate Fundado(b: Balances, cuenta: string, fechas: seq<string>, regla: Regla, datos: PyDict.Dict<string, real>) {
    forall f :: PyDict.HasKey(datos, f) ==> f in fechas && Justificado(b, cuenta, f, regla, PyDict.Get(datos, f).value)
  }

  lemma PasoFundado(b: Balances, cuenta: string, s: nat, fecha: string, fechas: seq<string>, regla: Regla, st: Estado)
    requires s < |Secciones| && fecha in fechas
    requires Fundado(b, cuenta, fechas, regla, st.datos)
    ensures Fundado(b, cuenta, fechas, regla, Paso(b, cuenta, Secciones[s], fecha, regla, st).datos)
  {
    var seccion := Secciones[s];
    var exacta := ClaveExacta(fecha, seccion, cuenta);
    var r := Paso(b, cuenta, seccion, fecha, regla, st);
    if r.datos != st.datos {
      var v := PyDict.Get(r.datos, fecha);
      forall f | PyDict.HasKey(r.datos, f)
        ensures f in fechas && Justificado(b, cuenta, f, regla, PyDict.Get(r.datos, f).value)
      {
        match PyDict.Get(b, exacta)
        case Some(w) =>
          PyDict.GetPut(st.datos, fecha, w, f);
          if f == fecha {
            var i :| 0 <= i < |b| && b[i] == (exacta, w);
            assert b[i].1 == w && b[i].0 == ClaveExacta(fecha, Secciones[s], cuenta);
          }
        case None =>
          var i := PrimeraParcial(b, Prefijo(fecha, seccion), Sumaria.Normalize(cuenta), regla).value;
          PyDict.GetPut(st.datos, fecha, b[i].1, f);
          if f == fecha {
            assert Parcial(b[i].0, Prefijo(fecha, Secciones[s]), Sumaria.Normalize(cuenta), regla);
          }
      }
    }
  }

  lemma {:induction false} TrasFechasFundado(b: Balances, cuenta: string, s: nat, fs: seq<string>, fechas: seq<string>, regla: Regla, st: Estado)
    requires s < |Secciones| && forall f :: f in fs ==> f in fechas
    requires Fundado(b, cuenta, fechas, regla, st.datos)
    ensures Fundado(b, cuenta, fechas, regla, TrasFechas(b, cuenta, Secciones[s], fs, regla, st).datos)
  {
    if fs != [] {
      var init := fs[..|fs| - 1];
      assert forall f :: f in init ==> f in fs;
      TrasFechasFundado(b, cuenta, s, init, fechas, regla, st);
      PasoFundado(b, cuenta, s, fs[|fs| - 1], fechas, regla, TrasFechas(b, cuenta, Secciones[s], init, regla, st));
    }
  }

  lemma {:induction false} TrasSeccionesFundado(b: Balances, cuenta: string, n: nat, fechas: seq<string>, regla: Regla, st: Estado)
    requires n <= |Secciones|
    requires Fundado(b, cuenta, fechas, regla, st.datos)
    ensures Fundado(b, cuenta, fechas, regla, TrasSecciones(b, cuenta, Secciones[..n], fechas, regla, st).datos)
  {
    if n > 0 {
      assert Secciones[..n][..n - 1] == Secciones[..n - 1];
      TrasSeccionesFundado(b, cuenta, n - 1, fechas, regla, st);
      TrasFechasFundado(b, cuenta, n - 1, fechas, fechas, regla, TrasSecciones(b, cuenta, Secciones[..n - 1], fechas, regla, st));
    }
  }

  /** Every reported date was requested, and its value is that of the
      account's exact key or of a partially matching key, for that date and
      one of the four sections. */
  lemma VerificarFundado(b: Balances, cuenta: string, fechas: seq<string>, regla: Regla)
    ensures Fundado(b, cuenta, fechas, regla, Verificar(b, cuenta, fechas, regla).datos)
  {
    TrasSeccionesFundado(b, cuenta, |Secciones|, fechas, regla, Estado(false, []));
    assert Secciones[..|Secciones|] == Secciones;
  }

  // ----------------------------------------------- the exact key prevails

  lemma PasoOtraFecha(b: Balances, cuenta: string, seccion: string, fecha: string, regla: Regla, st: Estado, f: string)
    requires f != fecha
    ensures PyDict.Get(Paso(b, cuenta, seccion, fecha, regla, st).datos, f) == PyDict.Get(st.datos, f)
  {
    forall v: real ensures PyDict.Get(PyDict.Put(st.datos, fecha, v), f) == PyDict.Get(st.datos, f) {
      PyDict.GetPut(st.datos, fecha, v, f);
    }
  }

  lemma {:induction false} TrasFechasExacta(b: Balances, cuenta: string, seccion: string, fs: seq<string>, regla: Regla, st: Estado, f: string)
    requires f in fs && PyDict.HasKey(b, ClaveExacta(f, seccion, cuenta))
    ensures PyDict.Get(TrasFechas(b, cuenta, seccion, fs, regla, st).datos, f) == PyDict.Get(b, ClaveExacta(f, seccion, cuenta))
  {
    var init := fs[..|fs| - 1];
    var prev := TrasFechas(b, cuenta, seccion, init, regla, st);
    if fs[|fs| - 1] == f {
      PyDict.GetPut(prev.datos, f, PyDict.Get(b, ClaveExacta(f, seccion, cuenta)).value, f);
    } else {
      assert fs == init + [fs[|fs| - 1]];
      TrasFechasExacta(b, cuenta, seccion, init, regla, st, f);
      PasoOtraFecha(b, cuenta, seccion, fs[|fs| - 1], regla, prev, f);
    }
  }

  lemma {:induction false} TrasFechasConserva(b: Balances, cuenta: string, seccion: string, fs: seq<string>, regla: Regla, st: Estado, f: string)
    requires !PyDict.HasKey(b, ClaveExacta(f, seccion, cuenta)) && PyDict.HasKey(st.datos, f)
    ensures PyDict.Get(TrasFechas(b, cuenta, seccion, fs, regla, st).datos, f) == PyDict.Get(st.datos, f)
  {
    if fs != [] {
      var init := fs[..|fs| - 1];
      TrasFechasConserva(b, cuenta, seccion, init, regla, st, f);
      if fs[|fs| - 1] != f {
        PasoOtraFecha(b, cuenta, seccion, fs[|fs| - 1], regla, TrasFechas(b, cuenta, seccion, init, regla, st), f);
      }
    }
  }

  lemma {:induction false} TrasSeccionesExacta(b: Balances, cuenta: string, n: nat, fechas: seq<string>, regla: Regla, st: Estado, f: string, s: nat)
    requires s < n <= |Secciones| && f in fechas
    requires PyDict.HasKey(b, ClaveExacta(f, Secciones[s], cuenta))
    requires forall t :: s < t < |Secciones| ==> !PyDict.HasKey(b, ClaveExacta(f, Secciones[t], cuenta))
    ensures PyDict.Get(TrasSecciones(b, cuenta, Secciones[..n], fechas, regla, st).datos, f) == PyDict.Get(b, ClaveExacta(f, Secciones[s], cuenta))
  {
    var secs := Secciones[..n];
    assert secs[..n - 1] == Secciones[..n - 1] && secs[n - 1] == Secciones[n - 1];
    var prev := TrasSecciones(b, cuenta, Secciones[..n - 1], fechas, regla, st);
    assert TrasSecciones(b, cuenta, secs, fechas, regla, st) == TrasFechas(b, cuenta, Secciones[n - 1], fechas, regla, prev);
    if n - 1 == s {
      TrasFechasExacta(b, cuenta, Secciones[s], fechas, regla, prev, f);
    } else {
      TrasSeccionesExacta(b, cuenta, n - 1, fechas, regla, st, f, s);
      TrasFechasConserva(b, cuenta, Secciones[n - 1], fechas, regla, prev, f);
    }
  }

  /** A requested date with an exact key in some section reports that key's
      value: the exact key of the last such section, whatever partial
      matches exist. */
  lemma VerificarExacta(b: Balances, cuenta: string, fechas: seq<string>, regla: Regla, f: string, s: nat)
    requires s < |Secciones| && f in fechas
    requires PyDict.HasKey(b, ClaveExacta(f, Secciones[s], cuenta))
    requires forall t :: s < t < |Secciones| ==> !PyDict.HasKey(b, ClaveExacta(f, Secciones[t], cuenta))
    ensures PyDict.Get(Verificar(b, cuenta, fechas, regla).datos, f) == PyDict.Get(b, ClaveExacta(f, Secciones[s], cuenta))
  {
    TrasSeccionesExacta(b, cuenta, |Secciones|, fechas, regla, Estado(false, []), f, s);
    assert Secciones[..|Secciones|] == Secciones;
  }

  // ------------------------------- the partial name as written and corrected

  /** The name the code compares for a key of date `fecha` and section
      `seccion`: from the fourth '-' field on, so it keeps the day of the
      date and the section in front of the account. */
  lemma NombreComoEscrito(fecha: string, seccion: string, nombre: string)
    requires SemestralDates.IsDateShape(fecha) && '-' !in seccion
    ensures NombreCuenta(Prefijo(fecha, seccion) + nombre, Prefijo(fecha, seccion), DesdeCuartoCampo)
         == Sumaria.Normalize(fecha[8..10] + "-" + seccion + "-" + nombre)
  {
    var u := [seccion] + Split(nombre, '-');
    SplitClave(fecha, seccion, nombre);
    var partes := Split(Prefijo(fecha, seccion) + nombre, '-');
    assert partes[3..] == [fecha[8..10]] + u;
    JoinCola(fecha[8..10], seccion, nombre);
  }

  /** The '-' fields of a key: "SEMESTRAL", year, month, day, section, then
      the fields of the account. */
  lemma SplitClave(fecha: string, seccion: string, nombre: string)
    requires SemestralDates.IsDateShape(fecha) && '-' !in seccion
    ensures Split(Prefijo(fecha, seccion) + nombre, '-')
         == ["SEMESTRAL"] + ([fecha[..4]] + ([fecha[5..7]] + ([fecha[8..10]] + ([seccion] + Split(nombre, '-')))))
  {
    var y, m, d := fecha[..4], fecha[5..7], fecha[8..10];
    DigitsExclude(y, '-');
    DigitsExclude(m, '-');
    DigitsExclude(d, '-');
    var t4 := seccion + ['-'] + nombre;
    var t3 := d + ['-'] + t4;
    var t2 := m + ['-'] + t3;
    var t1 := y + ['-'] + t2;
    assert fecha == y + ['-'] + m + ['-'] + d;
    assert Prefijo(fecha, seccion) + nombre == "SEMESTRAL" + ['-'] + t1;
    var u := [seccion] + Split(nombre, '-');
    assert Split(t4, '-') == u by { SplitHead(seccion, '-', nombre); }
    assert Split(t3, '-') == [d] + u by { SplitHead(d, '-', t4); }
    assert Split(t2, '-') == [m] + ([d] + u) by { SplitHead(m, '-', t3); }
    assert Split(t1, '-') == [y] + ([m] + ([d] + u)) by { SplitHead(y, '-', t2); }
    SplitHead("SEMESTRAL", '-', t1);
  }

  /** Joining the day, the section and the account's fields with '-'. */
  lemma JoinCola(d: string, seccion: string, nombre: string)
    ensures Join([d] + ([seccion] + Split(nombre, '-')), "-") == d + "-" + seccion + "-" + nombre
  {
    var resto := Split(nombre, '-');
    var u := [seccion] + resto;
    assert Join(resto, "-") == nombre by { JoinSplit(nombre, '-'); }
    assert Join(u, "-") == seccion + "-" + nombre by { JoinPrepend(seccion, resto, "-"); }
    assert Join([d] + u, "-") == d + "-" + (seccion + "-" + nombre) by { JoinPrepend(d, u, "-"); }
  }

  /** The name the corrected rule compares: the account after the prefix. */
  lemma NombreTrasPrefijo(prefijo: string, nombre: string)
    ensures NombreCuenta(prefijo + nombre, prefijo, TrasPrefijo) == Sumaria.Normalize(nombre)
  {
    assert (prefijo + nombre)[..|prefijo|] == prefijo;
    assert (prefijo + nombre)[|prefijo|..] == nombre;
  }

  /** As written, an account named like its section matches, partially,
      every key of that section, whatever account the key is for. */
  lemma SeccionComoCuenta(fecha: string, seccion: string, nombre: string)
    requires SemestralDates.IsDateShape(fecha) && '-' !in seccion
    requires seccion != [] && !IsSpace(seccion[0]) && !IsSpace(seccion[|seccion| - 1])
    requires nombre == [] || !IsSpace(nombre[|nombre| - 1])
    ensures Parcial(Prefijo(fecha, seccion) + nombre, Prefijo(fecha, seccion), Sumaria.Normalize(seccion), DesdeCuartoCampo)
  {
    var clave := Prefijo(fecha, seccion) + nombre;
    assert StartsWith(clave, Prefijo(fecha, seccion));
    var x := fecha[8..10] + "-" + seccion + "-" + nombre;
    ContieneSeccion(fecha[8..10], seccion, nombre);
    assert IsDigit(x[0]) && x[|x| - 1] == if nombre == [] then '-' else nombre[|nombre| - 1];
    NormalizeLower(x);
    NormalizeLower(seccion);
    NombreComoEscrito(fecha, seccion, nombre);
  }

  /** `s.lower().strip()` of a string without whitespace at its ends. */
  lemma NormalizeLower(s: string)
    requires s == [] || (!IsSpace(s[0]) && !IsSpace(s[|s| - 1]))
    ensures Sumaria.Normalize(s) == Lower(s)
  {
    StripLowerUnchanged(s);
  }

  lemma ContieneSeccion(d: string, seccion: string, nombre: string)
    requires |d| == 2
    ensures Contains(Lower(d + "-" + seccion + "-" + nombre), Lower(seccion))
  {
    var x := d + "-" + seccion + "-" + nombre;
    assert x[3..3 + |seccion|] == seccion;
    assert Lower(x)[3..3 + |seccion|] == Lower(seccion);
    ContainsAt(Lower(x), Lower(seccion), 3);
  }

  // ------------------------------------------- one key of another account

  /** The key of the account "Proveedores" in the section "Pasivo". */
  function ClaveProveedores(fecha: string): string {
    Prefijo(fecha, "Pasivo") + "Proveedores"
  }

  lemma UnaFecha(b: Balances, cuenta: string, seccion: string, fecha: string, regla: Regla, st: Estado)
    ensures TrasFechas(b, cuenta, seccion, [fecha], regla, st) == Paso(b, cuenta, seccion, fecha, regla, st)
  {
    assert [fecha][..0] == [];
  }

  /** One date: the inner step for each of the four sections in turn. */
  lemma CuatroSecciones(b: Balances, cuenta: string, fecha: string, regla: Regla)
    ensures Verificar(b, cuenta, [fecha], regla)
         == Paso(b, cuenta, Secciones[3], fecha, regla,
              Paso(b, cuenta, Secciones[2], fecha, regla,
                Paso(b, cuenta, Secciones[1], fecha, regla,
                  Paso(b, cuenta, Secciones[0], fecha, regla, Estado(false, [])))))
  {
    var st0 := Estado(false, []);
    forall s | 0 <= s < 4
      ensures TrasFechas(b, cuenta, Secciones[s], [fecha], regla, TrasSecciones(b, cuenta, Secciones[..s], [fecha], regla, st0))
           == Paso(b, cuenta, Secciones[s], fecha, regla, TrasSecciones(b, cuenta, Secciones[..s], [fecha], regla, st0))
    {
      UnaFecha(b, cuenta, Secciones[s], fecha, regla, TrasSecciones(b, cuenta, Secciones[..s], [fecha], regla, st0));
    }
    assert Secciones[..4][..3] == Secciones[..3] && Secciones[..3][..2] == Secciones[..2];
    assert Secciones[..2][..1] == Secciones[..1] && Secciones[..1][..0] == Secciones[..0] == [];
    assert Secciones == Secciones[..4];
  }

  /** The key of "Proveedores" is no exact key of the account "Pasivo", and
      starts with the prefix of no section but "Pasivo". */
  lemma ClavesDistintas(fecha: string, s: nat)
    requires s < |Secciones|
    ensures ClaveExacta(fecha, Secciones[s], "Pasivo") != ClaveProveedores(fecha)
    ensures s != 1 ==> !StartsWith(ClaveProveedores(fecha), Prefijo(fecha, Secciones[s]))
  {
    var n := 11 + |fecha|;
    var k := ClaveProveedores(fecha);
    var e := ClaveExacta(fecha, Secciones[s], "Pasivo");
    var p := Prefijo(fecha, Secciones[s]);
    assert k[n..] == "Pasivo-Proveedores";
    assert e[n..] == Secciones[s] + "-Pasivo";
    assert p[n..] == Secciones[s] + "-";
    if s == 1 {
      assert e[n + 8] != k[n + 8];
    } else if s == 2 {
      assert e[n + 2] != k[n + 2] && p[n + 2] != k[n + 2];
    } else {
      assert e[n] != k[n] && p[n] != k[n];
    }
  }

  /** "proveedores" and "pasivo" do not contain one another. */
  lemma ProveedoresNoPasivo()
    ensures !Sumaria.Related(Sumaria.Normalize("Pasivo"), Sumaria.Normalize("Proveedores"))
  {
    MinusculasDistintas();
    NormalizeLower("Pasivo");
    NormalizeLower("Proveedores");
  }

  lemma MinusculasDistintas()
    ensures !Contains(Lower("Proveedores"), Lower("Pasivo")) && !Contains(Lower("Pasivo"), Lower("Proveedores"))
  {
    var a, b := Lower("Pasivo"), Lower("Proveedores");
    assert a[1] == 'a';
    assert 'a' !in b;
    if Contains(b, a) {
      ContainsChars(b, a);
    }
    if Contains(a, b) {
      ContainsChars(a, b);
    }
  }

  /** In the sections other than "Pasivo" the key of "Proveedores" changes
      nothing. */
  lemma PasoOtraSeccion(fecha: string, v: real, s: nat, regla: Regla, st: Estado)
    requires s < |Secciones| && s != 1
    ensures Paso([(ClaveProveedores(fecha), v)], "Pasivo", Secciones[s], fecha, regla, st) == st
  {
    var b := [(ClaveProveedores(fecha), v)];
    ClavesDistintas(fecha, s);
    assert !PyDict.HasKey(b, ClaveExacta(fecha, Secciones[s], "Pasivo"));
    assert !Parcial(b[0].0, Prefijo(fecha, Secciones[s]), Sumaria.Normalize("Pasivo"), regla);
  }

  /** In the section "Pasivo", as written, the key of "Proveedores" gives
      the account "Pasivo" its value. */
  lemma PasoPasivoComoEscrito(fecha: string, v: real)
    requires SemestralDates.IsDateShape(fecha)
    ensures Paso([(ClaveProveedores(fecha), v)], "Pasivo", "Pasivo", fecha, DesdeCuartoCampo, Estado(false, []))
         == Estado(true, [(fecha, v)])
  {
    var b := [(ClaveProveedores(fecha), v)];
    ClavesDistintas(fecha, 1);
    assert !PyDict.HasKey(b, ClaveExacta(fecha, "Pasivo", "Pasivo"));
    SeccionComoCuenta(fecha, "Pasivo", "Proveedores");
    assert PrimeraParcial(b, Prefijo(fecha, "Pasivo"), Sumaria.Normalize("Pasivo"), DesdeCuartoCampo) == Some(0);
    PyDict.PutAbsent([], fecha, v);
  }

  /** In the section "Pasivo", under the corrected rule, the key of
      "Proveedores" is not taken for the account "Pasivo". */
  lemma PasoPasivoCorregido(fecha: string, v: real)
    ensures Paso([(ClaveProveedores(fecha), v)], "Pasivo", "Pasivo", fecha, TrasPrefijo, Estado(false, []))
         == Estado(false, [])
  {
    var b := [(ClaveProveedores(fecha), v)];
    ClavesDistintas(fecha, 1);
    assert !PyDict.HasKey(b, ClaveExacta(fecha, "Pasivo", "Pasivo"));
    assert !Parcial(b[0].0, Prefijo(fecha, "Pasivo"), Sumaria.Normalize("Pasivo"), TrasPrefijo) by {
      NombreTrasPrefijo(Prefijo(fecha, "Pasivo"), "Proveedores");
      ProveedoresNoPasivo();
    }
  }

  /** As written: the account "Pasivo" is reported present, with the value
      of the account "Proveedores", in balances that hold only the latter. */
  lemma VerificarComoEscrito(fecha: string, v: real)
    requires SemestralDates.IsDateShape(fecha)
    ensures Verificar([(ClaveProveedores(fecha), v)], "Pasivo", [fecha], DesdeCuartoCampo) == Estado(true, [(fecha, v)])
  {
    var b := [(ClaveProveedores(fecha), v)];
    CuatroSecciones(b, "Pasivo", fecha, DesdeCuartoCampo);
    PasoOtraSeccion(fecha, v, 0, DesdeCuartoCampo, Estado(false, []));
    PasoPasivoComoEscrito(fecha, v);
    PasoOtraSeccion(fecha, v, 2, DesdeCuartoCampo, Estado(true, [(fecha, v)]));
    PasoOtraSeccion(fecha, v, 3, DesdeCuartoCampo, Estado(true, [(fecha, v)]));
  }

  /** Corrected: the same balances report nothing for the account "Pasivo". */
  lemma VerificarCorregido(fecha: string, v: real)
    ensures Verificar([(ClaveProveedores(fecha), v)], "Pasivo", [fecha], TrasPrefijo) == Estado(false, [])
  {
    var b := [(ClaveProveedores(fecha), v)];
    CuatroSecciones(b, "Pasivo", fecha, TrasPrefijo);
    PasoOtraSeccion(fecha, v, 0, TrasPrefijo, Estado(false, []));
    PasoPasivoCorregido(fecha, v);
    PasoOtraSeccion(fecha, v, 2, TrasPrefijo, Estado(false, []));
    PasoOtraSeccion(fecha, v, 3, TrasPrefijo, Estado(false, []));
  }

  /** Under the corrected rule a reported value belongs to a key of that
      date and one of the sections whose account, the text after the
      prefix, is the requested account or relates to it. */
  lemma VerificarCorregidoNombra(b: Balances, cuenta: string, fechas: seq<string>, f: string)
    requires PyDict.HasKey(Verificar(b, cuenta, fechas, TrasPrefijo).datos, f)
    ensures f in fechas
    ensures exists s, i :: (0 <= s < |Secciones| && 0 <= i < |b| &&
      b[i].1 == PyDict.Get(Verificar(b, cuenta, fechas, TrasPrefijo).datos, f).value &&
      StartsWith(b[i].0, Prefijo(f, Secciones[s])) &&
      (b[i].0[|Prefijo(f, Secciones[s])|..] == cuenta ||
       Sumaria.Related(Sumaria.Normalize(cuenta), Sumaria.Normalize(b[i].0[|Prefijo(f, Secciones[s])|..]))))
  {
    var v := PyDict.Get(Verificar(b, cuenta, fechas, TrasPrefijo).datos, f).value;
    VerificarFundado(b, cuenta, fechas, TrasPrefijo);
    var s, i :| 0 <= s < |Secciones| && 0 <= i < |b| && b[i].1 == v &&
      (b[i].0 == ClaveExacta(f, Secciones[s], cuenta) ||
       Parcial(b[i].0, Prefijo(f, Secciones[s]), Sumaria.Normalize(cuenta), TrasPrefijo));
    var p := Prefijo(f, Secciones[s]);
    var nombre := b[i].0[|p|..];
    if b[i].0 == ClaveExacta(f, Secciones[s], cuenta) {
      assert b[i].0 == p + cuenta;
      assert b[i].0[..|p|] == p && nombre == cuenta;
    } else {
      assert StartsWith(b[i].0, p) && Sumaria.Related(Sumaria.Normalize(cuenta), Sumaria.Normalize(nombre)) by {
        assert b[i].0 == p + nombre;
        NombreTrasPrefijo(p, nombre);
      }
    }
  }
}
