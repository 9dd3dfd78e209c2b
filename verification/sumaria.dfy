/** The date and data helpers of the summary sheets
    (auditoria/processors/excel/sumaria/fechas.py and data_extraction.py):
    formatting a header date, looking up the adjustment of an account, and
    collecting the values of every account of a section by date. The
    semi-annual dates of the balances are `SemestralDates.Fechas`. */
module Sumaria {
  import opened Wrappers
  import opened Text
  import PyDict
  import SemestralDates
  import Lex

  type Balances = PyDict.Dict<string, real>

  // ------------------------------------------------------------ dates

  /** A key that holds no semi-annual date leaves the dates unchanged. */
  lemma FechasIgnoresShapeless(balances: Balances, k: string, v: real)
    requires SemestralDates.SearchDate(k).None?
    ensures SemestralDates.Fechas(balances + [(k, v)]) == SemestralDates.Fechas(balances)
  {
    var a, b := SemestralDates.Fechas(balances + [(k, v)]), SemestralDates.Fechas(balances);
    var ka, kb := PyDict.Keys(balances + [(k, v)]), PyDict.Keys(balances);
    assert ka == kb + [k];
    forall f ensures f in a <==> f in b {
      if f in a {
        var x :| x in ka && SemestralDates.SearchDate(x) == Some(f);
        assert x in kb;
      }
      if f in b {
        var x :| x in kb && SemestralDates.SearchDate(x) == Some(f);
        assert x in ka;
      }
    }
    Lex.SortedUnique(a, b);
  }

  /** `_formatear_fecha_ddmmaa`: "YYYY-MM-DD" becomes "DD/MM/YYYY"; a text
      that does not split into exactly three fields on '-' makes the
      unpacking raise `ValueError`. */
  function FormatearFechaDdmmaa(fechaIso: string): (r: Result<string, string>)
    ensures r.Err? <==> |Split(fechaIso, '-')| != 3
    ensures r.Ok? ==> r.value == Join([Split(fechaIso, '-')[2], Split(fechaIso, '-')[1], Split(fechaIso, '-')[0]], "/")
  {
    var parts := Split(fechaIso, '-');
    if |parts| != 3 then Err("ValueError")
    else
      Join3(parts[2], parts[1], parts[0], "/");
      Ok(parts[2] + "/" + parts[1] + "/" + parts[0])
  }

  /** A date "YYYY-MM-DD" comes out as its day, month and year. */
  lemma FormatearIsoDate(d: string)
    requires SemestralDates.IsDateShape(d)
    ensures FormatearFechaDdmmaa(d) == Ok(d[8..10] + "/" + d[5..7] + "/" + d[..4])
  {
    var y, m, dd := d[..4], d[5..7], d[8..10];
    assert d == y + "-" + m + "-" + dd;
    DigitsExclude(y, '-');
    DigitsExclude(m, '-');
    DigitsExclude(dd, '-');
    SplitHead(y, '-', m + "-" + dd);
    assert y + "-" + m + "-" + dd == y + ['-'] + (m + "-" + dd);
    SplitHead(m, '-', dd);
    assert m + "-" + dd == m + ['-'] + dd;
    assert Split(d, '-') == [y, m, dd];
  }

  /** The format reads back: splitting the result on '/' and reversing the
      fields gives the fields of the input, joined again by '-'. */
  lemma FormatearRoundTrip(fechaIso: string)
    requires '/' !in fechaIso
    requires FormatearFechaDdmmaa(fechaIso).Ok?
    ensures var p := Split(FormatearFechaDdmmaa(fechaIso).value, '/');
      |p| == 3 && Join([p[2], p[1], p[0]], "-") == fechaIso
  {
    var parts := Split(fechaIso, '-');
    SplitChars(fechaIso, '-', '/');
    SplitJoin([parts[2], parts[1], parts[0]], '/');
    assert [parts[2], parts[1], parts[0]][1..] == [parts[1], parts[0]];
    JoinSplit(fechaIso, '-');
    Join3(parts[0], parts[1], parts[2], "-");
    assert parts == [parts[0], parts[1], parts[2]];
  }

  // ---------------------------------------------- adjustment of an account

  /** `s.lower().strip()` */
  function Normalize(s: string): string {
    Strip(Lower(s))
  }

  /** `a in b or b in a` */
  predicate Related(a: string, b: string) {
    Contains(b, a) || Contains(a, b)
  }

  /** For each entry, in order, whether its normalised name is related to
      `nombre`. */
  function Hits<V>(entries: PyDict.Dict<string, V>, nombre: string): (h: seq<bool>)
    ensures |h| == |entries|
    ensures forall j :: 0 <= j < |entries| ==> h[j] == Related(nombre, Normalize(entries[j].0))
  {
    seq(|entries|, j requires 0 <= j < |entries| => Related(nombre, Normalize(entries[j].0)))
  }

  /** The first position holding true. */
  function FirstTrue(h: seq<bool>): (r: Option<nat>)
    ensures r.Some? ==> r.value < |h|
  {
    if h == [] then None
    else if h[0] then Some(0)
    else
      var r := FirstTrue(h[1..]);
      if r.None? then None else Some(r.value + 1)
  }

  lemma {:induction false} FirstTrueEs(h: seq<bool>)
    ensures FirstTrue(h).Some? ==> h[FirstTrue(h).value] && forall j :: 0 <= j < FirstTrue(h).value ==> !h[j]
    ensures FirstTrue(h).None? ==> forall j :: 0 <= j < |h| ==> !h[j]
  {
    if h != [] && !h[0] {
      FirstTrueEs(h[1..]);
      assert forall j :: 0 < j < |h| ==> h[1..][j - 1] == h[j];
    }
  }

  /** The first entry whose normalised name is related to `nombre`: the
      loop over the entries that returns at the first hit. */
  function FirstRelated<V>(entries: PyDict.Dict<string, V>, nombre: string): (r: Option<nat>)
    ensures r.Some? ==> r.value < |entries|
  {
    FirstTrue(Hits(entries, nombre))
  }

  /** The entry found is related and no earlier one is; when none is found,
      no entry is related. */
  lemma FirstRelatedEs<V>(entries: PyDict.Dict<string, V>, nombre: string)
    ensures var r := FirstRelated(entries, nombre);
      r.Some? ==> Related(nombre, Normalize(entries[r.value].0)) &&
                  forall j :: 0 <= j < r.value ==> !Related(nombre, Normalize(entries[j].0))
    ensures FirstRelated(entries, nombre).None? ==> forall j :: 0 <= j < |entries| ==> !Related(nombre, Normalize(entries[j].0))
  {
    FirstTrueEs(Hits(entries, nombre));
  }

  /** `encontrar_ajuste_para_cuenta`: nothing for a missing or empty map;
      the entry of the account itself when there is one; otherwise the
      first entry, in map order, whose name contains or is contained in the
      account's name, both lower-cased and trimmed. */
  function EncontrarAjuste<V>(ajustes: Option<PyDict.Dict<string, V>>, nombreCuenta: string): (r: Option<V>)
    ensures ajustes.None? || ajustes.value == [] ==> r.None?
    ensures ajustes.Some? && PyDict.HasKey(ajustes.value, nombreCuenta) ==> r == PyDict.Get(ajustes.value, nombreCuenta)
    ensures ajustes.Some? && !PyDict.HasKey(ajustes.value, nombreCuenta) ==>
      (r.None? <==> forall j :: 0 <= j < |ajustes.value| ==> !Related(Normalize(nombreCuenta), Normalize(ajustes.value[j].0)))
    ensures ajustes.Some? && !PyDict.HasKey(ajustes.value, nombreCuenta) && r.Some? ==>
      exists i :: 0 <= i < |ajustes.value| && ajustes.value[i].1 == r.value &&
        Related(Normalize(nombreCuenta), Normalize(ajustes.value[i].0)) &&
        forall j :: 0 <= j < i ==> !Related(Normalize(nombreCuenta), Normalize(ajustes.value[j].0))
  {
    if ajustes.None? || ajustes.value == [] then None
    else if PyDict.HasKey(ajustes.value, nombreCuenta) then PyDict.Get(ajustes.value, nombreCuenta)
    else
      FirstRelatedEs(ajustes.value, Normalize(nombreCuenta));
      match FirstRelated(ajustes.value, Normalize(nombreCuenta))
      case None => None
      case Some(i) => Some(ajustes.value[i].1)
  }

  /** A name that is blank once trimmed is contained in every name, so it
      picks the first entry when it is not itself a key. */
  lemma EncontrarBlank<V>(ajustes: PyDict.Dict<string, V>, nombreCuenta: string)
    requires ajustes != [] && !PyDict.HasKey(ajustes, nombreCuenta)
    requires Normalize(nombreCuenta) == ""
    ensures EncontrarAjuste(Some(ajustes), nombreCuenta) == Some(ajustes[0].1)
  {
    EmptyContained(Normalize(ajustes[0].0));
  }

  // ------------------------------------------- accounts of a section by date

  const SemPrefix := "SEMESTRAL-"

  /** The text between the date and the account: "-" + seccion + "-". */
  function Sep(seccion: string): string {
    "-" + seccion + "-"
  }

  predicate SepAt(k: string, sep: string, j: nat) {
    j + |sep| <= |k| && k[j..j + |sep|] == sep
  }

  /** Where the lazy `(.*?)` that starts at `j` ends: the first position
      from which `sep` follows, the group crossing no line break. */
  function LazyEnd(k: string, sep: string, j: nat): (r: Option<nat>)
    requires j <= |k|
    ensures r.Some? ==> j <= r.value <= |k| && SepAt(k, sep, r.value) && '\n' !in k[j..r.value]
    ensures r.Some? ==> forall i :: j <= i < r.value ==> !SepAt(k, sep, i)
    ensures r.None? ==> forall i :: j <= i <= |k| && '\n' !in k[j..i] ==> !SepAt(k, sep, i)
    decreases |k| - j
  {
    if SepAt(k, sep, j) then Some(j)
    else if j == |k| || k[j] == '\n' then
      assert forall i :: j < i <= |k| ==> k[j..i][0] == k[j];
      None
    else
      var r := LazyEnd(k, sep, j + 1);
      assert forall i :: j + 1 <= i <= |k| ==> k[j..i] == [k[j]] + k[j + 1..i];
      r
  }

  /** `re.match(f"SEMESTRAL-(.*?)-{seccion}-(.*)", k)` and its two groups,
      the date and the account name. */
  function Parse(k: string, seccion: string): (r: Option<(string, string)>)
    ensures r.Some? ==> StartsWith(k, SemPrefix + r.value.0 + Sep(seccion))
  {
    if !StartsWith(k, SemPrefix) then None
    else
      match LazyEnd(k, Sep(seccion), |SemPrefix|)
      case None => None
      case Some(e) =>
        assert k[..e + |Sep(seccion)|] == SemPrefix + k[|SemPrefix|..e] + Sep(seccion);
        Some((k[|SemPrefix|..e], UpToNewline(k[e + |Sep(seccion)|..])))
  }

  /** A key built from a date "YYYY-MM-DD", a section that does not start
      with a digit and a one-line account name parses back into them. */
  lemma ParseOfKey(fecha: string, seccion: string, cuenta: string)
    requires SemestralDates.IsDateShape(fecha)
    requires seccion != [] && !IsDigit(seccion[0])
    requires '\n' !in cuenta
    ensures Parse(SemPrefix + fecha + Sep(seccion) + cuenta, seccion) == Some((fecha, cuenta))
  {
    var k := SemPrefix + fecha + Sep(seccion) + cuenta;
    var sep := Sep(seccion);
    var n := |SemPrefix|;
    assert k[..n] == SemPrefix;
    assert k[n..n + 10] == fecha;
    assert SepAt(k, sep, n + 10) by { assert k[n + 10..n + 10 + |sep|] == sep; }
    forall i | n <= i < n + 10 ensures !SepAt(k, sep, i) {
      assert k[i] == fecha[i - n];
      if i - n == 4 || i - n == 7 {
        assert k[i + 1] == fecha[i - n + 1];
        assert k[i..i + |sep|][1] != sep[1];
      } else {
        assert k[i..i + |sep|][0] != sep[0];
      }
    }
    var r := LazyEnd(k, sep, n);
    assert '\n' !in k[n..n + 10] by { assert k[n..n + 10] == fecha; }
    assert r == Some(n + 10);
    assert k[n + 10 + |sep|..] == cuenta;
  }

  /** The (account, date) and value of each key that matches with a date
      listed in `fechas`, in iteration order. */
  function Entries(balances: Balances, fechas: seq<string>, seccion: string): (r: seq<((string, string), real)>)
  {
    if balances == [] then []
    else
      var init := Entries(balances[..|balances| - 1], fechas, seccion);
      var (k, v) := balances[|balances| - 1];
      match Parse(k, seccion)
      case None => init
      case Some((fecha, nombre)) => if fecha in fechas then init + [((nombre, fecha), v)] else init
  }

  /** Every entry comes from a key that matches with that date and
      account, carrying that key's value, and its date is listed. */
  lemma {:induction false} EntriesFromKeys(balances: Balances, fechas: seq<string>, seccion: string)
    ensures forall e :: e in Entries(balances, fechas, seccion) ==> e.0.1 in fechas
    ensures forall e :: e in Entries(balances, fechas, seccion) ==>
      exists i :: 0 <= i < |balances| && Parse(balances[i].0, seccion) == Some((e.0.1, e.0.0)) && balances[i].1 == e.1
  {
    if balances != [] {
      var b0 := balances[..|balances| - 1];
      EntriesFromKeys(b0, fechas, seccion);
      assert forall i :: 0 <= i < |b0| ==> b0[i] == balances[i];
    }
  }

  type Cuentas = PyDict.Dict<string, PyDict.Dict<string, real>>

  /** `d.setdefault(nombre, {})[fecha] = valor` */
  function SetDefault(d: Cuentas, nombre: string, fecha: string, valor: real): Cuentas {
    PyDict.Put(d, nombre, PyDict.Put(PyDict.Get(d, nombre).GetOr([]), fecha, valor))
  }

  /** The nested dictionary after the loop has seen `balances`. */
  function Nested(balances: Balances, fechas: seq<string>, seccion: string): Cuentas {
    if balances == [] then []
    else
      var init := Nested(balances[..|balances| - 1], fechas, seccion);
      var (k, v) := balances[|balances| - 1];
      match Parse(k, seccion)
      case None => init
      case Some((fecha, nombre)) => if fecha in fechas then SetDefault(init, nombre, fecha, v) else init
  }

  /** `todas_cuentas[nombre][fecha]`, or nothing. */
  function Lookup(d: Cuentas, nombre: string, fecha: string): Option<real> {
    match PyDict.Get(d, nombre)
    case None => None
    case Some(porFecha) => PyDict.Get(porFecha, fecha)
  }

  /** Looking an (account, date) up in the result gives the value of the
      last key for that account and date, and nothing when no key gives
      them. */
  lemma {:induction false} NestedLookup(balances: Balances, fechas: seq<string>, seccion: string, nombre: string, fecha: string)
    ensures Lookup(Nested(balances, fechas, seccion), nombre, fecha) ==
            PyDict.LastValue(Entries(balances, fechas, seccion), (nombre, fecha))
  {
    if balances != [] {
      var b0 := balances[..|balances| - 1];
      NestedLookup(b0, fechas, seccion, nombre, fecha);
      var init := Nested(b0, fechas, seccion);
      var (k, v) := balances[|balances| - 1];
      var p := Parse(k, seccion);
      if p.Some? && p.value.0 in fechas {
        var (f, n) := p.value;
        var inner := PyDict.Get(init, n).GetOr([]);
        PyDict.GetPut(init, n, PyDict.Put(inner, f, v), nombre);
        PyDict.GetPut(inner, f, v, fecha);
        var es0 := Entries(b0, fechas, seccion);
        var es := es0 + [((n, f), v)];
        assert Entries(balances, fechas, seccion) == es;
        assert es[..|es| - 1] == es0;
      }
    }
  }

  /** The result holds an account exactly when some key gives it with a
      listed date. */
  lemma {:induction false} NestedHasKey(balances: Balances, fechas: seq<string>, seccion: string, nombre: string)
    ensures PyDict.HasKey(Nested(balances, fechas, seccion), nombre) <==>
            exists e :: e in Entries(balances, fechas, seccion) && e.0.0 == nombre
  {
    if balances != [] {
      var b0 := balances[..|balances| - 1];
      NestedHasKey(b0, fechas, seccion, nombre);
      var init := Nested(b0, fechas, seccion);
      var (k, v) := balances[|balances| - 1];
      var p := Parse(k, seccion);
      if p.Some? && p.value.0 in fechas {
        var (f, n) := p.value;
        var inner := PyDict.Get(init, n).GetOr([]);
        PyDict.GetPut(init, n, PyDict.Put(inner, f, v), nombre);
        var es0 := Entries(b0, fechas, seccion);
        var es := es0 + [((n, f), v)];
        assert Entries(balances, fechas, seccion) == es;
        assert PyDict.HasKey(init, nombre) <==> PyDict.Get(init, nombre).Some?;

      }
    }
  }

  /** `obtener_todas_cuentas_seccion`: for each key that matches the
      pattern with a listed date, the value goes under its account and
      date, an account's dictionary being created on its first date. */
  method ObtenerTodasCuentasSeccion(balances: Balances, fechasSemestrales: seq<string>, seccion: string)
    returns (todasCuentas: Cuentas)
    ensures todasCuentas == Nested(balances, fechasSemestrales, seccion)
  {
    todasCuentas := [];
    for i := 0 to |balances|
      invariant todasCuentas == Nested(balances[..i], fechasSemestrales, seccion)
    {
      assert balances[..i + 1][..i] == balances[..i];
      var (clave, valor) := balances[i];
      var m := Parse(clave, seccion);
      if m.None? {
        continue;
      }
      var (fecha, nombreCuenta) := m.value;
      if fecha !in fechasSemestrales {
        continue;
      }
      todasCuentas := SetDefault(todasCuentas, nombreCuenta, fecha, valor);
    }
    assert balances[..|balances|] == balances;
  }
}
