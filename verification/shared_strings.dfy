/** Placeholder replacement straight in the XML parts of an .xlsm package,
    used when no spreadsheet application is at hand
    (auditoria/excel_utils/shared_strings_replacer.py): which replacements
    are allowed, the "Período:" labels and default period literals added
    when a period is known, and the text replacement applied to every
    shared-strings, worksheet and drawing part. */
module ReemplazoXlsm {
  import opened Wrappers
  import opened Text
  import opened PyDict

  /** The Python values a replacement dictionary holds. A float is kept as
      the text `str()` gives for it. */
  datatype Valor =
    | Cadena(s: string)
    | Entero(i: int)
    | Booleano(b: bool)
    | Flotante(repr: string)
    | Nulo
    | Otro(repr: string)

  /** `str(v)` */
  function Texto(v: Valor): string {
    match v
    case Cadena(s) => s
    case Entero(i) => IntToString(i)
    case Booleano(b) => if b then "True" else "False"
    case Flotante(r) => r
    case Nulo => "None"
    case Otro(r) => r
  }

  /** `isinstance(v, (str, int, float))`; a bool is an int. */
  predicate Admisible(v: Valor) {
    v.Cadena? || v.Entero? || v.Booleano? || v.Flotante?
  }

  // ------------------------------------------------------------ filtering

  const Prefijos: seq<string> := ["Entidad", "Auditoría", "Auditoria", "Período", "Periodo"]

  /** `_allow(k)`: a bracketed placeholder, or a key starting with one of
      the label prefixes. */
  predicate Permitida(k: string) {
    (StartsWith(k, "[") && EndsWith(k, "]")) || exists i :: 0 <= i < |Prefijos| && StartsWith(k, Prefijos[i])
  }

  /** The comprehension keeping the allowed entries, in order. */
  function Filtrar(d: Dict<string, Valor>): Dict<string, Valor> {
    if d == [] then []
    else
      var ultimo := d[|d| - 1];
      Filtrar(d[..|d| - 1]) + (if Permitida(ultimo.0) then [ultimo] else [])
  }

  /** The filtered dictionary holds exactly the allowed keys, with their
      values, and no key twice. */
  lemma {:induction false} FiltrarEs(d: Dict<string, Valor>, k: string)
    ensures Get(Filtrar(d), k) == if Permitida(k) then Get(d, k) else None
  {
    if d != [] {
      var previo := d[..|d| - 1];
      var ultimo := d[|d| - 1];
      FiltrarEs(previo, k);
      var cola := if Permitida(ultimo.0) then [ultimo] else [];
      GetAppend(Filtrar(previo), cola, k);
      assert d == previo + [ultimo];
      GetAppend(previo, [ultimo], k);
    }
  }

  lemma {:induction false} FiltrarValida(d: Dict<string, Valor>)
    requires Valid(d)
    ensures Valid(Filtrar(d))
  {
    if d != [] {
      var previo := d[..|d| - 1];
      var ultimo := d[|d| - 1];
      FiltrarValida(previo);
      if Permitida(ultimo.0) {
        FiltrarEs(previo, ultimo.0);
        forall i | 0 <= i < |previo| ensures previo[i].0 != ultimo.0 {
          assert previo[i] == d[i];
        }
        assert !HasKey(previo, ultimo.0);
        ValidAppend(Filtrar(previo), [ultimo]);
      }
    }
  }

  // --------------------------------------------------------- period value

  const ClavesPeriodo: seq<string> := ["[FECHA_RANGO_COMPLETA]", "[FECHA_RANGO]"]

  /** The first of `claves` present with a str, int or float value, as a
      string. */
  function PrimerValor(d: Dict<string, Valor>, claves: seq<string>): (r: Option<string>)
    ensures r.Some? ==> exists i :: 0 <= i < |claves| && Get(d, claves[i]).Some? &&
                          Admisible(Get(d, claves[i]).value) && r.value == Texto(Get(d, claves[i]).value)
  {
    if claves == [] then None
    else
      var g := Get(d, claves[0]);
      if g.Some? && Admisible(g.value) then Some(Texto(g.value))
      else
        var r := PrimerValor(d, claves[1..]);
        assert r.Some? ==> exists i :: 0 <= i < |claves| && Get(d, claves[i]).Some? && Admisible(Get(d, claves[i]).value) && r.value == Texto(Get(d, claves[i]).value) by {
          if r.Some? {
            var i :| 0 <= i < |claves[1..]| && Get(d, claves[1..][i]).Some? &&
                      Admisible(Get(d, claves[1..][i]).value) && r.value == Texto(Get(d, claves[1..][i]).value);
            assert claves[1..][i] == claves[i + 1];
          }
        }
        r
  }

  function Periodo(d: Dict<string, Valor>): Option<string> {
    PrimerValor(d, ClavesPeriodo)
  }

  /** The complete range wins over the short one; a key with a value of
      another type is passed over. */
  lemma PeriodoEs(d: Dict<string, Valor>)
    ensures var c := Get(d, "[FECHA_RANGO_COMPLETA]");
            var r := Get(d, "[FECHA_RANGO]");
            Periodo(d) == if c.Some? && Admisible(c.value) then Some(Texto(c.value))
                          else if r.Some? && Admisible(r.value) then Some(Texto(r.value))
                          else None
  {
    PrimerValorDos(d, "[FECHA_RANGO_COMPLETA]", "[FECHA_RANGO]");
  }

  lemma PrimerValorDos(d: Dict<string, Valor>, a: string, b: string)
    ensures var c := Get(d, a);
            var r := Get(d, b);
            PrimerValor(d, [a, b]) == if c.Some? && Admisible(c.value) then Some(Texto(c.value))
                                      else if r.Some? && Admisible(r.value) then Some(Texto(r.value))
                                      else None
  {
    assert [a, b][1..] == [b];
    assert [b][1..] == [];
  }

  // ------------------------------------------------ labels and literals

  const Etiquetas: seq<string> := ["Período:", "Periodo:", "Período :", "Periodo :"]

  const LiteralesPorDefecto: seq<string> := [
    "Del 01 de Enero al 31 de Diciembre de 2024",
    "DEL 01 DE ENERO AL 31 DE DICIEMBRE DE 2024",
    "Del 01 de enero al 31 de diciembre de 2024"
  ]

  /** `f"{label.split(':')[0]}: {periodo}"` */
  function ValorEtiqueta(etiqueta: string, periodo: string): string {
    Split(etiqueta, ':')[0] + ": " + periodo
  }

  /** Each label ends with its only colon, so its value is the label
      without the colon, ": " and the period. */
  lemma ValorEtiquetaEs(i: int, periodo: string)
    requires 0 <= i < |Etiquetas|
    ensures 8 <= |Etiquetas[i]| <= 9
    ensures ValorEtiqueta(Etiquetas[i], periodo) == Etiquetas[i][..|Etiquetas[i]| - 1] + ": " + periodo
  {
    var etiqueta := Etiquetas[i];
    var e := etiqueta[..|etiqueta| - 1];
    if i == 0 { assert etiqueta == "Período:"; assert e == "Período"; }
    else if i == 1 { assert etiqueta == "Periodo:"; assert e == "Periodo"; }
    else if i == 2 { assert etiqueta == "Período :"; assert e == "Período "; }
    else { assert etiqueta == "Periodo :"; assert e == "Periodo "; }
    assert etiqueta == e + [':'] + [];
    SplitHead(e, ':', []);
  }

  /** No label is a default literal: they differ in length. */
  lemma EtiquetaNoLiteral(i: int)
    requires 0 <= i < |Etiquetas|
    ensures Etiquetas[i] !in LiteralesPorDefecto
  {
    var l := Etiquetas[i];
    assert |l| <= 9 by {
      if i == 0 { assert l == "Período:"; }
      else if i == 1 { assert l == "Periodo:"; }
      else if i == 2 { assert l == "Período :"; }
      else { assert l == "Periodo :"; }
    }
    forall j | 0 <= j < |LiteralesPorDefecto| ensures LiteralesPorDefecto[j] != l {
      LongitudLiteral(j);
    }
  }

  lemma LongitudLiteral(j: int)
    requires 0 <= j < |LiteralesPorDefecto|
    ensures |LiteralesPorDefecto[j]| == 42
  {
    if j == 0 { assert LiteralesPorDefecto[j] == "Del 01 de Enero al 31 de Diciembre de 2024"; }
    else if j == 1 { assert LiteralesPorDefecto[j] == "DEL 01 DE ENERO AL 31 DE DICIEMBRE DE 2024"; }
    else { assert LiteralesPorDefecto[j] == "Del 01 de enero al 31 de diciembre de 2024"; }
  }

  /** `period_value.replace('Período:', '').replace('Periodo:', '').strip()` */
  function SoloPeriodo(periodo: string): string {
    Strip(ReplaceAll(ReplaceAll(periodo, "Período:", ""), "Periodo:", ""))
  }

  lemma SinDosPuntos(s: string, pat: string)
    requires ':' in pat && ':' !in s
    ensures !Contains(s, pat)
  {
    if Contains(s, pat) {
      ContainsChars(s, pat);
    }
  }

  /** A period without a colon is only stripped. */
  lemma SoloPeriodoSinEtiqueta(periodo: string)
    requires ':' !in periodo
    ensures SoloPeriodo(periodo) == Strip(periodo)
  {
    assert "Período:"[7] == ':' && "Periodo:"[7] == ':';
    SinDosPuntos(periodo, "Período:");
    ReplaceAbsent(periodo, "Período:", "");
    SinDosPuntos(periodo, "Periodo:");
    ReplaceAbsent(periodo, "Periodo:", "");
  }

  /** A period that carries the label "Período:" loses it. */
  lemma SoloPeriodoConEtiqueta(resto: string)
    requires ':' !in resto
    ensures SoloPeriodo("Período:" + resto) == Strip(resto)
  {
    var pat := "Período:";
    var s := pat + resto;
    assert s[..|pat|] == pat && s[|pat|..] == resto;
    assert pat[7] == ':' && "Periodo:"[7] == ':';
    SinDosPuntos(resto, pat);
    ReplaceAbsent(resto, pat, "");
    assert ReplaceAll(s, pat, "") == resto;
    SinDosPuntos(resto, "Periodo:");
    ReplaceAbsent(resto, "Periodo:", "");
  }

  /** `d[k] = v` for each pair in turn. */
  function Asignar(d: Dict<string, Valor>, pares: seq<(string, Valor)>): Dict<string, Valor> {
    if pares == [] then d
    else Put(Asignar(d, pares[..|pares| - 1]), pares[|pares| - 1].0, pares[|pares| - 1].1)
  }

  /** After the assignments a key holds the value last assigned to it, or
      its old value if none was. */
  lemma {:induction false} AsignarEs(d: Dict<string, Valor>, pares: seq<(string, Valor)>, k: string)
    ensures Valid(d) ==> Valid(Asignar(d, pares))
    ensures Get(Asignar(d, pares), k) == if LastValue(pares, k).Some? then LastValue(pares, k) else Get(d, k)
  {
    if pares != [] {
      var previo := pares[..|pares| - 1];
      var e := Asignar(d, previo);
      AsignarEs(d, previo, k);
      GetPut(e, pares[|pares| - 1].0, pares[|pares| - 1].1, k);
      if Valid(d) {
        PutValid(e, pares[|pares| - 1].0, pares[|pares| - 1].1);
      }
    }
  }

  /** The four label assignments. */
  function ParesEtiquetas(periodo: string): (r: seq<(string, Valor)>)
    ensures |r| == |Etiquetas|
    ensures forall i :: 0 <= i < |r| ==> r[i] == (Etiquetas[i], Cadena(ValorEtiqueta(Etiquetas[i], periodo)))
  {
    seq(|Etiquetas|, i requires 0 <= i < |Etiquetas| => (Etiquetas[i], Cadena(ValorEtiqueta(Etiquetas[i], periodo))))
  }

  /** The three literal assignments. */
  function ParesLiterales(valor: string): (r: seq<(string, Valor)>)
    ensures |r| == |LiteralesPorDefecto|
    ensures forall i :: 0 <= i < |r| ==> r[i] == (LiteralesPorDefecto[i], Cadena(valor))
  {
    seq(|LiteralesPorDefecto|, i requires 0 <= i < |LiteralesPorDefecto| => (LiteralesPorDefecto[i], Cadena(valor)))
  }

  /** When the assigned value depends only on the key, the last value
      assigned to a key is that value. */
  lemma UltimoDeClave(pares: seq<(string, Valor)>, claves: seq<string>, valor: string -> Valor, k: string)
    requires |pares| == |claves|
    requires forall i :: 0 <= i < |pares| ==> pares[i] == (claves[i], valor(claves[i]))
    ensures LastValue(pares, k) == if k in claves then Some(valor(k)) else None
  {
    if k in claves {
      var i :| 0 <= i < |claves| && claves[i] == k;
      assert pares[i].0 == k;
    }
  }

  /** `build_filtered_replacements(replacements_all)` */
  function Filtrados(todos: Dict<string, Valor>): Dict<string, Valor> {
    var f := Filtrar(todos);
    var p := Periodo(todos);
    if p.Some? && p.value != [] then
      Asignar(Asignar(f, ParesEtiquetas(p.value)), ParesLiterales(SoloPeriodo(p.value)))
    else f
  }

  lemma FiltradosValida(todos: Dict<string, Valor>)
    requires Valid(todos)
    ensures Valid(Filtrados(todos))
  {
    var f := Filtrar(todos);
    var p := Periodo(todos);
    FiltrarValida(todos);
    if p.Some? && p.value != [] {
      AsignarEs(f, ParesEtiquetas(p.value), "");
      AsignarEs(Asignar(f, ParesEtiquetas(p.value)), ParesLiterales(SoloPeriodo(p.value)), "");
    }
  }

  /** Keys other than the labels and literals, and every key when there is
      no period: present iff allowed, with their value. */
  lemma FiltradosOtra(todos: Dict<string, Valor>, k: string)
    requires var p := Periodo(todos);
             p.None? || p.value == [] || (k !in Etiquetas && k !in LiteralesPorDefecto)
    ensures Get(Filtrados(todos), k) == if Permitida(k) then Get(todos, k) else None
  {
    var f := Filtrar(todos);
    var p := Periodo(todos);
    FiltrarEs(todos, k);
    if p.Some? && p.value != [] {
      var e := Asignar(f, ParesEtiquetas(p.value));
      AsignarEs(f, ParesEtiquetas(p.value), k);
      AsignarEs(e, ParesLiterales(SoloPeriodo(p.value)), k);
      UltimoDeClave(ParesEtiquetas(p.value), Etiquetas, l => Cadena(ValorEtiqueta(l, p.value)), k);
      UltimoDeClave(ParesLiterales(SoloPeriodo(p.value)), LiteralesPorDefecto, l => Cadena(SoloPeriodo(p.value)), k);
    }
  }

  /** With a non-empty period, each of the four labels carries it after the
      label's own text (`ValorEtiquetaEs`). */
  lemma FiltradosEtiqueta(todos: Dict<string, Valor>, i: int)
    requires 0 <= i < |Etiquetas|
    requires var p := Periodo(todos); p.Some? && p.value != []
    ensures Get(Filtrados(todos), Etiquetas[i]) == Some(Cadena(ValorEtiqueta(Etiquetas[i], Periodo(todos).value)))
  {
    var f := Filtrar(todos);
    var p := Periodo(todos).value;
    var l := Etiquetas[i];
    var e := Asignar(f, ParesEtiquetas(p));
    AsignarEs(f, ParesEtiquetas(p), l);
    AsignarEs(e, ParesLiterales(SoloPeriodo(p)), l);
    UltimoDeClave(ParesEtiquetas(p), Etiquetas, x => Cadena(ValorEtiqueta(x, p)), l);
    EtiquetaNoLiteral(i);
    UltimoDeClave(ParesLiterales(SoloPeriodo(p)), LiteralesPorDefecto, x => Cadena(SoloPeriodo(p)), l);
  }

  /** With a non-empty period, each default literal of the template is
      replaced by the period without its label. */
  lemma FiltradosLiteral(todos: Dict<string, Valor>, j: int)
    requires 0 <= j < |LiteralesPorDefecto|
    requires var p := Periodo(todos); p.Some? && p.value != []
    ensures Get(Filtrados(todos), LiteralesPorDefecto[j]) == Some(Cadena(SoloPeriodo(Periodo(todos).value)))
  {
    var f := Filtrar(todos);
    var p := Periodo(todos).value;
    var l := LiteralesPorDefecto[j];
    var e := Asignar(f, ParesEtiquetas(p));
    AsignarEs(e, ParesLiterales(SoloPeriodo(p)), l);
    UltimoDeClave(ParesLiterales(SoloPeriodo(p)), LiteralesPorDefecto, x => Cadena(SoloPeriodo(p)), l);
  }

  /** A loop assigning each pair in turn. */
  method AsignarEn(d: Dict<string, Valor>, pares: seq<(string, Valor)>) returns (r: Dict<string, Valor>)
    ensures r == Asignar(d, pares)
  {
    r := d;
    for n := 0 to |pares|
      invariant r == Asignar(d, pares[..n])
    {
      assert pares[..n + 1][..n] == pares[..n];
      r := Put(r, pares[n].0, pares[n].1);
    }
    assert pares[..|pares|] == pares;
  }

  /** `build_filtered_replacements`, with its three loops. */
  method BuildFilteredReplacements(todos: Dict<string, Valor>) returns (r: Dict<string, Valor>)
    ensures r == Filtrados(todos)
  {
    r := Filtrar(todos);
    var periodo: Option<string> := None;
    var i := 0;
    while i < |ClavesPeriodo|
      invariant 0 <= i <= |ClavesPeriodo|
      invariant periodo.None? && Periodo(todos) == PrimerValor(todos, ClavesPeriodo[i..])
    {
      var clave := ClavesPeriodo[i];
      var g := Get(todos, clave);
      if g.Some? && Admisible(g.value) {
        periodo := Some(Texto(g.value));
        break;
      }
      assert ClavesPeriodo[i..][1..] == ClavesPeriodo[i + 1..];
      i := i + 1;
    }
    assert periodo == Periodo(todos);
    if periodo.Some? && periodo.value != [] {
      r := AsignarEn(r, ParesEtiquetas(periodo.value));
      var solo := SoloPeriodo(periodo.value);
      r := AsignarEn(r, ParesLiterales(solo));
    }
  }

  // ---------------------------------------------------- text replacement

  /** `text.count(k)` for a non-empty `k`: occurrences scanned left to
      right without overlap. */
  function Contar(s: string, k: string): nat
    requires k != []
    decreases |s|
  {
    if |s| < |k| then 0
    else if s[..|k|] == k then 1 + Contar(s[|k|..], k)
    else Contar(s[1..], k)
  }

  /** No occurrence is counted exactly when the key does not occur. */
  lemma {:induction false} ContarCero(s: string, k: string)
    requires k != []
    ensures Contar(s, k) == 0 <==> !Contains(s, k)
    decreases |s|
  {
    if |s| < |k| {
      if Contains(s, k) {
        ContainsChars(s, k);
      }
    } else if s[..|k|] != k {
      ContarCero(s[1..], k);
    }
  }

  /** Each occurrence replaced changes the length by the difference of the
      lengths. */
  lemma {:induction false} LongitudReemplazo(s: string, k: string, v: string)
    requires k != []
    ensures |ReplaceAll(s, k, v)| == |s| + Contar(s, k) * (|v| - |k|)
    decreases |s|
  {
    if |s| >= |k| {
      if s[..|k|] == k {
        LongitudReemplazo(s[|k|..], k, v);
        var c := Contar(s[|k|..], k);
        assert ReplaceAll(s, k, v) == v + ReplaceAll(s[|k|..], k, v);
        assert Contar(s, k) == 1 + c;
        Distribuye(c, |v| - |k|);
      } else {
        LongitudReemplazo(s[1..], k, v);
        assert ReplaceAll(s, k, v) == [s[0]] + ReplaceAll(s[1..], k, v);
      }
    }
  }

  lemma Distribuye(c: int, d: int)
    ensures (1 + c) * d == d + c * d
  {
  }

  /** One entry of the replacement loop: the text after it and the
      occurrences it counted. */
  function PasoTexto(texto: string, entrada: (string, Valor)): (string, nat) {
    var (k, v) := entrada;
    if k == [] then (texto, 0)
    else
      var n := Contar(texto, k);
      if n > 0 then (ReplaceAll(texto, k, Texto(v)), n) else (texto, 0)
  }

  /** The loop over the first entries of the replacements, in order. */
  function Reemplazar(texto: string, reemplazos: Dict<string, Valor>): (string, nat) {
    if reemplazos == [] then (texto, 0)
    else
      var (t, n) := Reemplazar(texto, reemplazos[..|reemplazos| - 1]);
      var (t', m) := PasoTexto(t, reemplazos[|reemplazos| - 1]);
      (t', n + m)
  }

  /** An entry with a non-empty key replaces every occurrence with `str` of
      its value, whether or not the key occurs; an empty key is skipped. */
  lemma PasoTextoEs(texto: string, k: string, v: Valor)
    ensures PasoTexto(texto, (k, v)).0 == if k == [] then texto else ReplaceAll(texto, k, Texto(v))
    ensures k != [] ==> PasoTexto(texto, (k, v)).1 == Contar(texto, k)
  {
    if k != [] && Contar(texto, k) == 0 {
      ContarCero(texto, k);
      ReplaceAbsent(texto, k, Texto(v));
    }
  }

  /** A part in which no replacement hit is left as it was. */
  lemma {:induction false} SinAciertosSinCambios(texto: string, reemplazos: Dict<string, Valor>)
    ensures Reemplazar(texto, reemplazos).1 == 0 ==> Reemplazar(texto, reemplazos).0 == texto
  {
    if reemplazos != [] {
      SinAciertosSinCambios(texto, reemplazos[..|reemplazos| - 1]);
    }
  }

  /** A part that holds none of the keys, with values that hold none of
      them either, is left as it was with no hit. */
  lemma {:induction false} SinClavesSinCambios(texto: string, reemplazos: Dict<string, Valor>)
    requires forall i :: 0 <= i < |reemplazos| && reemplazos[i].0 != [] ==> !Contains(texto, reemplazos[i].0)
    ensures Reemplazar(texto, reemplazos) == (texto, 0)
  {
    if reemplazos != [] {
      var previo := reemplazos[..|reemplazos| - 1];
      SinClavesSinCambios(texto, previo);
      var (k, v) := reemplazos[|reemplazos| - 1];
      if k != [] {
        ContarCero(texto, k);
      }
    }
  }

  /** The inner loop of `replace_in_xlsm_shared_strings` on one decoded
      part: the new text and the number of hits. */
  method ReemplazarTexto(texto: string, reemplazos: Dict<string, Valor>) returns (r: string, aciertos: nat)
    ensures (r, aciertos) == Reemplazar(texto, reemplazos)
  {
    r, aciertos := texto, 0;
    for i := 0 to |reemplazos|
      invariant (r, aciertos) == Reemplazar(texto, reemplazos[..i])
    {
      assert reemplazos[..i + 1][..i] == reemplazos[..i];
      var (k, v) := reemplazos[i];
      var valor := Texto(v);
      if k == [] {
        continue;
      }
      var n := Contar(r, k);
      if n > 0 {
        r := ReplaceAll(r, k, valor);
        aciertos := aciertos + n;
      }
    }
    assert reemplazos[..|reemplazos|] == reemplazos;
  }

  // ------------------------------------------------------------- package

  /** A member of the package: its name and its content, decoded. */
  datatype Parte = Parte(nombre: string, contenido: string)

  /** The parts whose text is searched: the shared strings, and the XML of
      every worksheet and every drawing. */
  predicate ConTexto(nombre: string) {
    nombre == "xl/sharedStrings.xml"
    || (StartsWith(nombre, "xl/worksheets/") && EndsWith(nombre, ".xml"))
    || (StartsWith(nombre, "xl/drawings/") && EndsWith(nombre, ".xml"))
  }

  function Copia(p: Parte, reemplazos: Dict<string, Valor>): Parte {
    if ConTexto(p.nombre) then Parte(p.nombre, Reemplazar(p.contenido, reemplazos).0) else p
  }

  /** `replace_in_xlsm_shared_strings`: every part copied in order, the
      text parts with the replacements applied, the others untouched. */
  method ReplaceInXlsmSharedStrings(origen: seq<Parte>, reemplazos: Dict<string, Valor>) returns (destino: seq<Parte>)
    ensures |destino| == |origen|
    ensures forall i :: 0 <= i < |origen| ==> destino[i] == Copia(origen[i], reemplazos)
  {
    destino := [];
    for i := 0 to |origen|
      invariant |destino| == i
      invariant forall j :: 0 <= j < i ==> destino[j] == Copia(origen[j], reemplazos)
    {
      var parte := origen[i];
      var contenido := parte.contenido;
      if ConTexto(parte.nombre) {
        var aciertos;
        contenido, aciertos := ReemplazarTexto(contenido, reemplazos);
      }
      destino := destino + [Parte(parte.nombre, contenido)];
    }
  }
}
