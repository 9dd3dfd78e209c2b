/** The data of the initial-balance test
    (auditoria/processors/excel/initial_balance_tests/data_extraction.py):
    the year-end date of the latest year among the annual keys, the accounts
    of that date by section, and the latest initial balance of each
    account. */
module SaldosIniciales {
  import opened Wrappers
  import opened Text
  import PyDict
  import Lex
  import SemestralDates

  type Balances = PyDict.Dict<string, real>

  const Anual := "ANUAL-"

  const Secciones: seq<string> := ["Activo", "Pasivo", "Patrimonio", "ESTADO DE RESULTADOS"]

  // ------------------------------------------------ the latest year-end date

  /** `ANUAL-(\d{4}-\d{2}-\d{2})` matches at position `i` of `k`. */
  predicate AnualAt(k: string, i: nat) {
    i + 16 <= |k| && k[i..i + 6] == Anual && SemestralDates.IsDateShape(k[i + 6..i + 16])
  }

  /** The leftmost position from `i` on where the pattern matches. */
  function AnualDesde(k: string, i: nat): Option<nat>
    decreases |k| - i
  {
    if i + 16 > |k| then None
    else if AnualAt(k, i) then Some(i)
    else AnualDesde(k, i + 1)
  }

  lemma {:induction false} AnualDesdeEs(k: string, i: nat)
    ensures var r := AnualDesde(k, i);
      && (r.Some? ==> i <= r.value && AnualAt(k, r.value))
      && (r.Some? ==> forall j :: i <= j < r.value ==> !AnualAt(k, j))
      && (r.None? ==> forall j :: i <= j ==> !AnualAt(k, j))
    decreases |k| - i
  {
    if i + 16 <= |k| && !AnualAt(k, i) {
      AnualDesdeEs(k, i + 1);
    }
  }

  /** `patron_fecha.search(clave)` and its group 1: the date after the
      leftmost "ANUAL-" that is followed by a date. */
  function FechaAnual(k: string): (r: Option<string>)
    ensures r.Some? ==> SemestralDates.IsDateShape(r.value)
  {
    match AnualDesde(k, 0)
    case None => None
    case Some(p) =>
      AnualDesdeEs(k, 0);
      Some(k[p + 6..p + 16])
  }

  /** The date found follows "ANUAL-" in the key, and there is none exactly
      when the pattern matches nowhere. */
  lemma FechaAnualEs(k: string)
    ensures var r := FechaAnual(k);
      && (r.Some? ==> Contains(k, Anual + r.value))
      && (r.None? <==> forall j: nat :: !AnualAt(k, j))
  {
    AnualDesdeEs(k, 0);
    match AnualDesde(k, 0)
    case None =>
    case Some(p) =>
      assert k[p..p + 16] == Anual + k[p + 6..p + 16];
      ContainsAt(k, Anual + k[p + 6..p + 16], p);
  }

  /** A key that starts with "ANUAL-" and a date yields that date. */
  lemma FechaAnualDeClave(d: string, resto: string)
    requires SemestralDates.IsDateShape(d)
    ensures FechaAnual(Anual + d + resto) == Some(d)
  {
    var k := Anual + d + resto;
    assert k[0..6] == Anual && k[6..16] == d;
    assert AnualAt(k, 0);
  }

  /** `fecha_completa.split('-')[0]` of a date is its first four
      characters. */
  lemma AnioDeFecha(f: string)
    requires SemestralDates.IsDateShape(f)
    ensures Split(f, '-')[0] == f[..4]
  {
    assert f == f[..4] + ['-'] + f[5..];
    DigitsExclude(f[..4], '-');
    SplitHead(f[..4], '-', f[5..]);
  }

  /** Key `k` yields the year-end date `f`. */
  predicate Candidata(k: string, f: string) {
    FechaAnual(k) == Some(f) && EndsWith(f, "12-31")
  }

  /** The year-end date key `k` yields, if any. */
  function Nueva(k: string): (r: seq<string>)
    ensures |r| <= 1
    ensures forall f :: f in r ==> |f| == 10 && f == f[..4] + "-12-31"
  {
    match FechaAnual(k)
    case Some(f) =>
      if EndsWith(f, "12-31") then
        assert f[4] == '-' && f[5..] == "12-31";
        [f]
      else []
    case None => []
  }

  /** The year-end dates the keys yield, in key order: the candidates of
      the loop. */
  function Candidatas(keys: seq<string>): (r: seq<string>)
    ensures forall f :: f in r ==> |f| == 10 && f == f[..4] + "-12-31"
  {
    if keys == [] then [] else Candidatas(keys[..|keys| - 1]) + Nueva(keys[|keys| - 1])
  }

  /** A candidate is a date that some key yields and that ends in "12-31". */
  lemma {:induction false} CandidatasEs(keys: seq<string>, f: string)
    ensures f in Candidatas(keys) <==> exists j :: 0 <= j < |keys| && Candidata(keys[j], f)
  {
    if keys != [] {
      var init := keys[..|keys| - 1];
      var k := keys[|keys| - 1];
      CandidatasEs(init, f);
      NuevaEs(k, f);
      assert keys == init + [k];
      ExistsPrefix(init, k, f);
    }
  }

  /** A candidate of `init + [k]` comes from `init` or from `k`. */
  lemma ExistsPrefix(init: seq<string>, k: string, f: string)
    ensures (exists j :: 0 <= j < |init + [k]| && Candidata((init + [k])[j], f))
      <==> (exists j :: 0 <= j < |init| && Candidata(init[j], f)) || Candidata(k, f)
  {
    var keys := init + [k];
    if exists j :: 0 <= j < |keys| && Candidata(keys[j], f) {
      var j :| 0 <= j < |keys| && Candidata(keys[j], f);
      if j < |init| {
        assert init[j] == keys[j];
      }
    }
    if exists j :: 0 <= j < |init| && Candidata(init[j], f) {
      var j :| 0 <= j < |init| && Candidata(init[j], f);
      assert keys[j] == init[j];
    }
    if Candidata(k, f) {
      assert keys[|init|] == k;
    }
  }

  lemma NuevaEs(k: string, f: string)
    ensures f in Nueva(k) <==> Candidata(k, f)
  {
  }

  /** Year to date, as the loop fills `fechas`. */
  type Anios = PyDict.Dict<string, string>

  /** One key of the loop: a year-end date is stored for its year when the
      year has none yet or an earlier one. */
  function PasoAnio(fechas: Anios, k: string): Anios {
    match FechaAnual(k)
    case None => fechas
    case Some(f) =>
      if !EndsWith(f, "12-31") then fechas
      else
        var a := f[..4];
        if !PyDict.HasKey(fechas, a) || Lex.Less(PyDict.Get(fechas, a).value, f) then PyDict.Put(fechas, a, f)
        else fechas
  }

  /** `fechas` after the loop over `keys`. */
  function PorAnio(keys: seq<string>): Anios {
    if keys == [] then [] else PasoAnio(PorAnio(keys[..|keys| - 1]), keys[|keys| - 1])
  }

  /** `obtener_fecha_ultimo_dia_año_reciente` once `fechas` is filled: the
      date stored for the greatest year and that year, or (None, None). */
  function UltimoDia(fechas: Anios): (Option<string>, Option<string>) {
    if fechas == [] then (None, None)
    else
      var a := Lex.Max(PyDict.Keys(fechas));
      (PyDict.Get(fechas, a), Some(a))
  }

  /** What the loop keeps about `fechas` after the keys yielding the
      candidates `c`: every year stored maps to its year-end date, and the
      years stored are exactly the years of the candidates. */
  ghost predicate AniosDe(d: Anios, c: seq<string>) {
    && (forall i :: 0 <= i < |d| ==> d[i].1 == d[i].0 + "-12-31" && |d[i].0| == 4)
    && (forall a :: PyDict.HasKey(d, a) <==> a + "-12-31" in c)
  }

  /** Storing a year not stored before. */
  lemma PutAnio(prev: Anios, a: string, c: seq<string>)
    requires AniosDe(prev, c) && !PyDict.HasKey(prev, a) && |a| == 4
    ensures AniosDe(prev + [(a, a + "-12-31")], c + [a + "-12-31"])
  {
    var f := a + "-12-31";
    var d := prev + [(a, f)];
    forall g ensures PyDict.HasKey(d, g) <==> PyDict.HasKey(prev, g) || g == a {
      PyDict.HasKeyAppend(prev, [(a, f)], g);
      assert [(a, f)][0].0 == a;
    }
    forall g ensures g + "-12-31" in c + [f] <==> g + "-12-31" in c || g == a {
      if g + "-12-31" == f {
        assert (g + "-12-31")[..|g|] == g && f[..4] == a;
      }
    }
  }

  /** One key of the loop keeps what the loop keeps: a year already stored
      holds the very date found, so it is never replaced. */
  lemma PasoAnioEs(prev: Anios, k: string, c: seq<string>)
    requires AniosDe(prev, c)
    ensures AniosDe(PasoAnio(prev, k), c + Nueva(k))
  {
    match FechaAnual(k)
    case None =>
      assert c + [] == c;
    case Some(f) =>
      if EndsWith(f, "12-31") {
        assert f[4] == '-' && f[5..] == "12-31";
        var a := f[..4];
        assert f == a + "-12-31";
        if PyDict.HasKey(prev, a) {
          var v := PyDict.Get(prev, a).value;
          var i :| 0 <= i < |prev| && prev[i] == (a, v);
          Lex.LessIrreflexive(f);
          assert f in c;
          assert forall g :: g in c + [f] <==> g in c;
        } else {
          PyDict.PutAbsent(prev, a, f);
          PutAnio(prev, a, c);
        }
      } else {
        assert c + [] == c;
      }
  }

  lemma {:induction false} PorAnioEs(keys: seq<string>)
    ensures AniosDe(PorAnio(keys), Candidatas(keys))
  {
    if keys != [] {
      PorAnioEs(keys[..|keys| - 1]);
      PasoAnioEs(PorAnio(keys[..|keys| - 1]), keys[|keys| - 1], Candidatas(keys[..|keys| - 1]));
    }
  }

  /** `obtener_fecha_ultimo_dia_año_reciente(balances)`: none when no key
      holds an annual year-end date; otherwise the greatest candidate date,
      with its year. */
  lemma UltimoDiaEs(balances: Balances)
    ensures var c := Candidatas(PyDict.Keys(balances));
      UltimoDia(PorAnio(PyDict.Keys(balances))) ==
        if c == [] then (None, None) else (Some(Lex.Max(c)), Some(Lex.Max(c)[..4]))
  {
    var keys := PyDict.Keys(balances);
    var c := Candidatas(keys);
    var d := PorAnio(keys);
    PorAnioEs(keys);
    if d != [] {
      var m := Lex.Max(PyDict.Keys(d));
      var i :| 0 <= i < |d| && PyDict.Keys(d)[i] == m;
      assert d[i].0 == m && PyDict.HasKey(d, m);
      var v := PyDict.Get(d, m).value;
      var l :| 0 <= l < |d| && d[l] == (m, v);
      assert v == m + "-12-31";
      var big := Lex.Max(c);
      var y := big[..4];
      assert big == y + "-12-31";
      assert PyDict.HasKey(d, y);
      var jy :| 0 <= jy < |d| && d[jy].0 == y;
      assert PyDict.Keys(d)[jy] == y;
      if y != m {
        Lex.LessSameLength(y, m, "-12-31", "-12-31");
        assert v in c;
        Lex.LessAsymmetric(big, v);
      }
    }
  }

  /** `obtener_fecha_ultimo_dia_año_reciente(balances)` */
  method FechaUltimoDiaAnioReciente(balances: Balances) returns (fecha: Option<string>, anio: Option<string>)
    ensures (fecha, anio) == UltimoDia(PorAnio(PyDict.Keys(balances)))
  {
    var keys := PyDict.Keys(balances);
    var fechas: Anios := [];
    for i := 0 to |balances|
      invariant fechas == PorAnio(keys[..i])
    {
      assert keys[..i + 1][..i] == keys[..i];
      var clave := balances[i].0;
      var m := FechaAnual(clave);
      if m.Some? {
        var fechaCompleta := m.value;
        var a := fechaCompleta[..4];
        if EndsWith(fechaCompleta, "12-31") {
          if !PyDict.HasKey(fechas, a) || Lex.Less(PyDict.Get(fechas, a).value, fechaCompleta) {
            fechas := PyDict.Put(fechas, a, fechaCompleta);
          }
        }
      }
    }
    assert keys[..|balances|] == keys;
    if fechas == [] {
      return None, None;
    }
    var anioMasReciente := Lex.Max(PyDict.Keys(fechas));
    return PyDict.Get(fechas, anioMasReciente), Some(anioMasReciente);
  }

  // ----------------------------------------- the accounts of the year end

  /** `re.match(f'ANUAL-{fecha}-(.*?)-(.*)', clave)` and its groups: after
      the prefix the section runs to the first '-', with no line break
      before it, and the account is the rest of that line. */
  function SeccionYCuenta(k: string, fecha: string): Option<(string, string)> {
    var p := Anual + fecha + "-";
    if !StartsWith(k, p) then None
    else
      var resto := k[|p|..];
      if '-' !in resto then None
      else
        var i := FirstIndex(resto, '-');
        if '\n' in resto[..i] then None
        else Some((resto[..i], UpToNewline(resto[i + 1..])))
  }

  /** The key "ANUAL-<fecha>-<seccion>-<cuenta>" gives back its section
      and account when the section holds no '-' and neither holds a line
      break. */
  lemma SeccionYCuentaDeClave(fecha: string, seccion: string, cuenta: string)
    requires '-' !in seccion && '\n' !in seccion && '\n' !in cuenta
    ensures SeccionYCuenta(Anual + fecha + "-" + seccion + "-" + cuenta, fecha) == Some((seccion, cuenta))
  {
    var p := Anual + fecha + "-";
    var k := Anual + fecha + "-" + seccion + "-" + cuenta;
    assert k == p + (seccion + "-" + cuenta);
    var resto := k[|p|..];
    assert resto == seccion + "-" + cuenta;
    assert resto[|seccion|] == '-' && resto[..|seccion|] == seccion;
    assert FirstIndex(resto, '-') == |seccion|;
    assert resto[|seccion| + 1..] == cuenta;
  }

  /** The (account, value) pairs of the keys of date `fecha` in section
      `s`, in key order. */
  function Entradas(balances: Balances, fecha: string, s: string): seq<(string, real)> {
    if balances == [] then []
    else
      var prev := Entradas(balances[..|balances| - 1], fecha, s);
      var (k, v) := balances[|balances| - 1];
      match SeccionYCuenta(k, fecha)
      case Some((s', c)) => if s' == s then prev + [(c, v)] else prev
      case None => prev
  }

  /** Accounts by section, each section an insertion-ordered dictionary. */
  type PorSeccion = map<string, PyDict.Dict<string, real>>

  /** `extraer_cuentas_balance_ultimo_dia`: the four sections, each holding
      the accounts assigned to it in key order. */
  function CuentasBalance(balances: Balances, fecha: string): PorSeccion {
    map s | s in Secciones :: PyDict.FromPairs(Entradas(balances, fecha, s))
  }

  /** The value of the last key of date `fecha` naming section `s` and
      account `c`: a reference definition, independent of the loop. */
  function UltimoValor(balances: Balances, fecha: string, s: string, c: string): Option<real> {
    if balances == [] then None
    else if SeccionYCuenta(balances[|balances| - 1].0, fecha) == Some((s, c)) then Some(balances[|balances| - 1].1)
    else UltimoValor(balances[..|balances| - 1], fecha, s, c)
  }

  lemma {:induction false} EntradasUltimo(balances: Balances, fecha: string, s: string, c: string)
    ensures PyDict.LastValue(Entradas(balances, fecha, s), c) == UltimoValor(balances, fecha, s, c)
  {
    if balances != [] {
      var prev := Entradas(balances[..|balances| - 1], fecha, s);
      EntradasUltimo(balances[..|balances| - 1], fecha, s, c);
      var (k, v) := balances[|balances| - 1];
      match SeccionYCuenta(k, fecha)
      case Some((s', c')) =>
        if s' == s {
          assert (prev + [(c', v)])[..|prev|] == prev;
        }
      case None =>
    }
  }

  /** Exactly the four sections are present, and in each the account `c`
      holds the value of the last key of the date naming that section and
      that account; accounts of other sections are dropped. */
  lemma CuentaBalanceEs(balances: Balances, fecha: string, s: string, c: string)
    ensures s in CuentasBalance(balances, fecha) <==> s in Secciones
    ensures s in Secciones ==> PyDict.Get(CuentasBalance(balances, fecha)[s], c) == UltimoValor(balances, fecha, s, c)
  {
    if s in Secciones {
      PyDict.GetFromPairs(Entradas(balances, fecha, s), c);
      EntradasUltimo(balances, fecha, s, c);
    }
  }

  /** One key of the loop: a key of the date naming one of the sections
      assigns its account there. */
  function PasoCuentas(prev: PorSeccion, k: string, v: real, fecha: string): PorSeccion {
    match SeccionYCuenta(k, fecha)
    case Some((s, c)) => if s in prev then prev[s := PyDict.Put(prev[s], c, v)] else prev
    case None => prev
  }

  lemma CuentasBalancePaso(balances: Balances, fecha: string, i: nat)
    requires i < |balances|
    ensures CuentasBalance(balances[..i + 1], fecha) ==
      PasoCuentas(CuentasBalance(balances[..i], fecha), balances[i].0, balances[i].1, fecha)
  {
    var b := balances[..i + 1];
    assert b[..i] == balances[..i] && b[i] == balances[i];
    var prev := CuentasBalance(balances[..i], fecha);
    var post := CuentasBalance(b, fecha);
    var (k, v) := balances[i];
    forall t | t in Secciones
      ensures post[t] == PasoCuentas(prev, k, v, fecha)[t]
    {
      var e := Entradas(balances[..i], fecha, t);
      match SeccionYCuenta(k, fecha)
      case Some((s, c)) =>
        if s == t {
          PyDict.FromPairsSnoc(e, c, v);
        }
      case None =>
    }
  }

  /** `extraer_cuentas_balance_ultimo_dia(balances, fecha_ultimo_dia)` */
  method ExtraerCuentasBalanceUltimoDia(balances: Balances, fecha: string) returns (cuentas: PorSeccion)
    ensures cuentas == CuentasBalance(balances, fecha)
  {
    cuentas := map s | s in Secciones :: [];
    assert balances[..0] == [];
    for i := 0 to |balances|
      invariant cuentas == CuentasBalance(balances[..i], fecha)
    {
      CuentasBalancePaso(balances, fecha, i);
      var (clave, valor) := balances[i];
      var m := SeccionYCuenta(clave, fecha);
      if m.Some? {
        var (seccion, cuenta) := m.value;
        if seccion in cuentas {
          cuentas := cuentas[seccion := PyDict.Put(cuentas[seccion], cuenta, valor)];
        }
      }
    }
    assert balances[..|balances|] == balances;
  }

  // ------------------------------------------------ the initial balances

  /** `clave.split('-')` when it gives two fields at least: the account is
      the first field and the date the others rejoined with '-', that is
      the text before and after the first '-'. */
  function CuentaYFecha(k: string): (r: Option<(string, string)>)
    ensures r.None? <==> '-' !in k
    ensures r.Some? ==> k == r.value.0 + "-" + r.value.1 && '-' !in r.value.0
  {
    if '-' !in k then None
    else
      var i := FirstIndex(k, '-');
      assert k == k[..i] + "-" + k[i + 1..];
      Some((k[..i], k[i + 1..]))
  }

  /** The same fields as `partes[0]` and `'-'.join(partes[1:])`. */
  lemma CuentaYFechaSplit(k: string)
    requires '-' in k
    ensures var partes := Split(k, '-');
      |partes| >= 2 && CuentaYFecha(k) == Some((partes[0], Join(partes[1..], "-")))
  {
    var (c, f) := CuentaYFecha(k).value;
    SplitHead(c, '-', f);
    JoinSplit(f, '-');
    assert k == c + ['-'] + f;
  }

  /** The key "<cuenta>-<fecha>" of an account without '-' gives both back. */
  lemma CuentaYFechaDeClave(cuenta: string, fecha: string)
    requires '-' !in cuenta
    ensures CuentaYFecha(cuenta + "-" + fecha) == Some((cuenta, fecha))
  {
    var k := cuenta + "-" + fecha;
    assert k[|cuenta|] == '-' && k[..|cuenta|] == cuenta && k[|cuenta| + 1..] == fecha;
    assert FirstIndex(k, '-') == |cuenta|;
  }

  /** Account to (date to value), as the loop fills `cuentas`. */
  type Registros = PyDict.Dict<string, PyDict.Dict<string, real>>

  /** One entry of the loop: the value is assigned to the account's date,
      the account being added with no dates first when new. */
  function PasoSaldo(cuentas: Registros, k: string, v: real): Registros {
    match CuentaYFecha(k)
    case None => cuentas
    case Some((c, f)) =>
      var previas := if PyDict.HasKey(cuentas, c) then PyDict.Get(cuentas, c).value else [];
      PyDict.Put(cuentas, c, PyDict.Put(previas, f, v))
  }

  /** `cuentas` after the loop. */
  function PorCuenta(saldos: Balances): Registros {
    if saldos == [] then []
    else PasoSaldo(PorCuenta(saldos[..|saldos| - 1]), saldos[|saldos| - 1].0, saldos[|saldos| - 1].1)
  }

  /** The dates added to `todas_las_fechas`, in key order. */
  function TodasLasFechas(saldos: Balances): seq<string> {
    if saldos == [] then []
    else
      var prev := TodasLasFechas(saldos[..|saldos| - 1]);
      match CuentaYFecha(saldos[|saldos| - 1].0)
      case Some((_, f)) => prev + [f]
      case None => prev
  }

  /** The (date, value) records of account `c`, in key order. */
  function RegistrosDe(saldos: Balances, c: string): seq<(string, real)> {
    if saldos == [] then []
    else
      var prev := RegistrosDe(saldos[..|saldos| - 1], c);
      match CuentaYFecha(saldos[|saldos| - 1].0)
      case Some((c', f)) => if c' == c then prev + [(f, saldos[|saldos| - 1].1)] else prev
      case None => prev
  }

  /** The value at the greatest date of one account's dates. */
  function ValorMasReciente(fechasValores: PyDict.Dict<string, real>): real
    requires fechasValores != []
  {
    var m := Lex.Max(PyDict.Keys(fechasValores));
    var i :| 0 <= i < |fechasValores| && PyDict.Keys(fechasValores)[i] == m;
    assert fechasValores[i].0 == m;
    PyDict.Get(fechasValores, m).value
  }

  /** The comprehension over `cuentas.items()`: each account with dates
      maps to the value at its greatest date. */
  function MasRecientes(cuentas: Registros): PyDict.Dict<string, real> {
    if cuentas == [] then []
    else
      var rest := MasRecientes(cuentas[1..]);
      if cuentas[0].1 == [] then rest else [(cuentas[0].0, ValorMasReciente(cuentas[0].1))] + rest
  }

  /** The loop files every record under its account: an account is present
      exactly when it has records, with its dates assigned in key order. */
  lemma {:induction false} PorCuentaEs(saldos: Balances, c: string)
    ensures PyDict.Valid(PorCuenta(saldos))
    ensures PyDict.Get(PorCuenta(saldos), c) ==
      if RegistrosDe(saldos, c) == [] then None else Some(PyDict.FromPairs(RegistrosDe(saldos, c)))
  {
    if saldos != [] {
      var init := saldos[..|saldos| - 1];
      var prev := PorCuenta(init);
      PorCuentaEs(init, c);
      var (k, v) := saldos[|saldos| - 1];
      match CuentaYFecha(k)
      case None =>
      case Some((c', f)) =>
        var previas := if PyDict.HasKey(prev, c') then PyDict.Get(prev, c').value else [];
        PyDict.PutValid(prev, c', PyDict.Put(previas, f, v));
        PyDict.GetPut(prev, c', PyDict.Put(previas, f, v), c);
        if c' == c {
          PorCuentaEs(init, c');
          PyDict.FromPairsSnoc(RegistrosDe(init, c), f, v);
        }
    }
  }

  /** In a dictionary without repeated keys, the comprehension keeps each
      account that has dates, with the value at its greatest date. */
  lemma {:induction false} MasRecientesEs(cuentas: Registros, c: string)
    requires PyDict.Valid(cuentas)
    ensures PyDict.Get(MasRecientes(cuentas), c) ==
      match PyDict.Get(cuentas, c)
      case Some(fv) => if fv == [] then None else Some(ValorMasReciente(fv))
      case None => None
  {
    if cuentas != [] {
      assert PyDict.Valid(cuentas[1..]) by {
        forall i, j | 0 <= i < j < |cuentas[1..]| ensures cuentas[1..][i].0 != cuentas[1..][j].0 {
          assert cuentas[1..][i] == cuentas[i + 1] && cuentas[1..][j] == cuentas[j + 1];
        }
      }
      MasRecientesEs(cuentas[1..], c);
      if cuentas[0].0 == c {
        assert !PyDict.HasKey(cuentas[1..], c) by {
          forall i | 0 <= i < |cuentas[1..]| ensures cuentas[1..][i].0 != c {
            assert cuentas[1..][i] == cuentas[i + 1];
          }
        }
      }
    }
  }

  /** `extraer_cuentas_saldos_iniciales`, account by account: an account
      with records takes the value of its last record at its greatest date,
      and an account without records is absent. */
  lemma SaldoInicialEs(saldos: Balances, c: string)
    ensures var r := RegistrosDe(saldos, c);
      PyDict.Get(MasRecientes(PorCuenta(saldos)), c) ==
        if r == [] then None else PyDict.LastValue(r, Lex.Max(PyDict.Keys(r)))
  {
    var r := RegistrosDe(saldos, c);
    PorCuentaEs(saldos, c);
    MasRecientesEs(PorCuenta(saldos), c);
    if r != [] {
      var fv := PyDict.FromPairs(r);
      forall y ensures y in PyDict.Keys(fv) <==> y in PyDict.Keys(r) {
        PyDict.KeysFromPairs(r, y);
        if y in PyDict.Keys(r) {
          var i :| 0 <= i < |r| && PyDict.Keys(r)[i] == y;
        }
      }
      assert fv != [] by {
        assert r[0].0 in PyDict.Keys(r);
      }
      Lex.MaxSameElements(PyDict.Keys(fv), PyDict.Keys(r));
      PyDict.GetFromPairs(r, Lex.Max(PyDict.Keys(r)));
    }
  }

  /** The key holds a '-' with the date `f` after the first one. */
  predicate DaFecha(k: string, f: string) {
    CuentaYFecha(k).Some? && CuentaYFecha(k).value.1 == f
  }

  /** The dates collected are exactly the text after the first '-' of
      every key holding one. */
  lemma {:induction false} TodasLasFechasEs(saldos: Balances, f: string)
    ensures f in TodasLasFechas(saldos) <==> exists i :: 0 <= i < |saldos| && DaFecha(saldos[i].0, f)
  {
    if saldos != [] {
      var init := saldos[..|saldos| - 1];
      var last := saldos[|saldos| - 1];
      TodasLasFechasEs(init, f);
      assert f in TodasLasFechas(saldos) <==> f in TodasLasFechas(init) || DaFecha(last.0, f);
      assert saldos == init + [last];
      DaFechaPrefix(init, last, f);
    }
  }

  /** A key of `init + [last]` giving date `f` is one of `init` or `last`. */
  lemma DaFechaPrefix(init: Balances, last: (string, real), f: string)
    ensures (exists i :: 0 <= i < |init + [last]| && DaFecha((init + [last])[i].0, f))
      <==> (exists i :: 0 <= i < |init| && DaFecha(init[i].0, f)) || DaFecha(last.0, f)
  {
    var all := init + [last];
    if exists i :: 0 <= i < |all| && DaFecha(all[i].0, f) {
      var i :| 0 <= i < |all| && DaFecha(all[i].0, f);
      if i < |init| {
        assert init[i] == all[i];
      }
    }
    if exists i :: 0 <= i < |init| && DaFecha(init[i].0, f) {
      var i :| 0 <= i < |init| && DaFecha(init[i].0, f);
      assert all[i] == init[i];
    }
    if DaFecha(last.0, f) {
      assert all[|init|] == last;
    }
  }

  /** `extraer_cuentas_saldos_iniciales(saldos_iniciales)` */
  method ExtraerCuentasSaldosIniciales(saldos: Balances) returns (valores: PyDict.Dict<string, real>, fecha: Option<string>)
    ensures valores == MasRecientes(PorCuenta(saldos))
    ensures fecha == if TodasLasFechas(saldos) == [] then None else Some(Lex.Max(TodasLasFechas(saldos)))
  {
    var cuentas: Registros := [];
    var todas: seq<string> := [];
    for i := 0 to |saldos|
      invariant cuentas == PorCuenta(saldos[..i])
      invariant todas == TodasLasFechas(saldos[..i])
    {
      assert saldos[..i + 1][..i] == saldos[..i];
      var (clave, valor) := saldos[i];
      var partes := CuentaYFecha(clave);
      if partes.Some? {
        var (cuenta, f) := partes.value;
        // a new account starts with no dates
        var previas: PyDict.Dict<string, real> := [];
        if PyDict.HasKey(cuentas, cuenta) {
          previas := PyDict.Get(cuentas, cuenta).value;
        }
        cuentas := PyDict.Put(cuentas, cuenta, PyDict.Put(previas, f, valor));
        todas := todas + [f];
      }
    }
    assert saldos[..|saldos|] == saldos;
    valores := MasRecientes(cuentas);
    fecha := if todas == [] then None else Some(Lex.Max(todas));
  }
}
