/** The audit dates written into the Word and Excel templates: a date
    rendered "DD de <Month> de YYYY" by `strftime`, its English month name
    translated, then normalised to a zero-padded day and a capitalised
    month (auditoria/excel_utils/date_formatter.py). */
module FormatoFechas {
  import opened Wrappers
  import opened Text
  import opened Calendario

  /** The keys of the translation table, in its iteration order. */
  const Ingles: seq<string> := ["January", "February", "March", "April", "May", "June",
                                "July", "August", "September", "October", "November", "December"]

  /** The values of the translation table, key by key. */
  const Espanol: seq<string> := ["Enero", "Febrero", "Marzo", "Abril", "Mayo", "Junio",
                                 "Julio", "Agosto", "Septiembre", "Octubre", "Noviembre", "Diciembre"]

  const InicioPorDefecto: string := "01 de Enero de 2024"
  const FinPorDefecto: string := "31 de Diciembre de 2024"

  // ------------------------------------------------------------ rendering

  /** `fecha.strftime('%d de %B de %Y')` in the C locale. */
  function Strftime(f: Fecha): string
    requires Valida(f)
  {
    TwoDigits(f.dia) + " de " + Ingles[f.mes - 1] + " de " + NatToString(f.anio)
  }

  /** The same date with its month named in Spanish: what the templates are
      meant to show. */
  function EnEspanol(f: Fecha): string
    requires Valida(f)
  {
    TwoDigits(f.dia) + " de " + Espanol[f.mes - 1] + " de " + NatToString(f.anio)
  }

  /** The translation loop after its first `k` pairs: every occurrence of
      each English name replaced, pair by pair in table order. */
  function Traducir(s: string, k: nat): string
    requires k <= 12
  {
    if k == 0 then s else ReplaceAll(Traducir(s, k - 1), Ingles[k - 1], Espanol[k - 1])
  }

  // ----------------------------------------------------- date parts

  /** `_format_date_parts` as written: with four fields or more it reads
      the fifth, which raises IndexError when there are exactly four. */
  function FormatearPartesComoEscrito(s: string): (r: Result<string, string>)
    ensures r.Err? <==> |Split(s, ' ')| == 4
  {
    var p := Split(s, ' ');
    if |p| >= 4 then
      if |p| < 5 then Err("IndexError")
      else Ok(ZFill(p[0], 2) + " de " + Capitalize(p[2]) + " de " + p[4])
    else Ok(s)
  }

  /** `_format_date_parts` with the guard it evidently intends: the
      rewrite needs a fifth field. */
  function FormatearPartes(s: string): (r: string)
    ensures |Split(s, ' ')| < 5 ==> r == s
  {
    var p := Split(s, ' ');
    if |p| >= 5 then ZFill(p[0], 2) + " de " + Capitalize(p[2]) + " de " + p[4] else s
  }

  /** Where the code as written returns, it agrees with the corrected
      function; it fails exactly on four fields. */
  lemma ComoEscritoCorregido(s: string)
    ensures var r := FormatearPartesComoEscrito(s);
            (r.Ok? ==> r.value == FormatearPartes(s)) &&
            (r.Err? <==> |Split(s, ' ')| == 4)
  {
  }

  /** Four space-free fields, such as "1 de Enero 2024", pass the guard and
      raise IndexError. */
  lemma CuatroPartesFalla(a: string, b: string, c: string, d: string)
    requires ' ' !in a && ' ' !in b && ' ' !in c && ' ' !in d
    ensures FormatearPartesComoEscrito(Join([a, b, c, d], " ")).Err?
  {
    SplitJoin([a, b, c, d], ' ');
  }

  /** The five fields of a date joined by spaces. */
  lemma JoinFecha(a: string, c: string, e: string)
    ensures Join([a, "de", c, "de", e], " ") == a + " de " + c + " de " + e
  {
    var cola := Join([c, "de", e], " ");
    Join3(c, "de", e, " ");
    assert cola == c + " de " + e;
    JoinPrepend("de", [c, "de", e], " ");
    JoinPrepend(a, ["de", c, "de", e], " ");
    assert Join(["de", c, "de", e], " ") == "de " + cola;
  }

  /** "D de M de Y" with space-free fields becomes the day padded to two
      digits, "de", the capitalised month, "de" and the year. */
  lemma FormatearFecha(d: string, m: string, y: string)
    requires ' ' !in d && ' ' !in m && ' ' !in y
    ensures FormatearPartes(d + " de " + m + " de " + y)
            == ZFill(d, 2) + " de " + Capitalize(m) + " de " + y
  {
    JoinFecha(d, m, y);
    SplitJoin([d, "de", m, "de", y], ' ');
  }

  /** What the rewrite produces splits back into its five fields. */
  lemma PartesDelResultado(s: string)
    requires |Split(s, ' ')| >= 5
    ensures var p := Split(s, ' ');
            Split(FormatearPartes(s), ' ') == [ZFill(p[0], 2), "de", Capitalize(p[2]), "de", p[4]]
  {
    var p := Split(s, ' ');
    var z := ZFill(p[0], 2);
    var c := Capitalize(p[2]);
    SinEspacioZFill(p[0]);
    SinEspacioCapitalize(p[2]);
    JoinFecha(z, c, p[4]);
    SplitJoin([z, "de", c, "de", p[4]], ' ');
  }

  lemma SinEspacioZFill(s: string)
    requires ' ' !in s
    ensures ' ' !in ZFill(s, 2)
  {
    if |s| < 2 {
      var pad := seq(2 - |s|, _ => '0');
      assert ' ' !in pad;
      if s != [] && (s[0] == '+' || s[0] == '-') {
        assert ZFill(s, 2) == [s[0]] + pad + s[1..];
        assert ' ' !in s[1..];
      }
    }
  }

  lemma SinEspacioCapitalize(s: string)
    requires ' ' !in s
    ensures ' ' !in Capitalize(s)
  {
    var r := Capitalize(s);
    forall i | 0 <= i < |r| ensures r[i] != ' ' {
      if i > 0 {
        assert r[i] == Lower(s[1..])[i - 1] == LowerChar(s[i]);
      }
    }
  }

  lemma UpperCharIdempotent(c: char)
    ensures UpperChar(UpperChar(c)) == UpperChar(c)
  {
  }

  lemma CapitalizeIdempotent(s: string)
    ensures Capitalize(Capitalize(s)) == Capitalize(s)
  {
    if s != [] {
      UpperCharIdempotent(s[0]);
      LowerIdempotent(s[1..]);
    }
  }

  /** Rewriting a rewritten date changes nothing more. */
  lemma FormatearIdempotente(s: string)
    ensures FormatearPartes(FormatearPartes(s)) == FormatearPartes(s)
  {
    if |Split(s, ' ')| >= 5 {
      var p := Split(s, ' ');
      PartesDelResultado(s);
      CapitalizeIdempotent(p[2]);
    }
  }

  // ------------------------------------------------------- translation

  /** A month name: an upper-case initial, then no upper-case letter and no
      space. */
  predicate NombreDeMes(s: string) {
    |s| >= 3 && IsUpperChar(s[0]) && forall c :: c in s[1..] ==> !IsUpperChar(c) && c != ' '
  }

  /** Tells month names apart by their first three letters: an English
      name gets its own index, a Spanish name that begins like its English
      name the same index, and the four that do not 100 more. */
  function Clave(s: string): int
    requires |s| >= 3
  {
    match s[0]
    case 'J' => if s[1] == 'a' then 0 else if s[2] == 'n' then 5 else 6
    case 'F' => 1
    case 'M' => if s[2] == 'r' then 2 else 4
    case 'A' => if s[1] == 'p' then 3 else if s[1] == 'u' then 7 else if s[1] == 'b' then 103 else 107
    case 'S' => 8
    case 'O' => 9
    case 'N' => 10
    case 'D' => if s[1] == 'e' then 11 else 111
    case 'E' => 100
    case _ => -1
  }

  /** Names told apart by `Clave` do not start one with the other. */
  lemma ClaveDistinta(a: string, b: string)
    requires |a| >= 3 && |b| >= 3 && Clave(a) != Clave(b)
    ensures !StartsWith(a, b)
  {
    if |b| <= |a| {
      var x := a[..|b|];
      assert x[0] == a[0] && x[1] == a[1] && x[2] == a[2];
    }
  }

  lemma NombreIngles(k: int)
    requires 0 <= k < 12
    ensures NombreDeMes(Ingles[k])
  {
    if k == 0 { assert Ingles[k] == "January"; assert Ingles[k][1..] == "anuary"; }
    else if k == 1 { assert Ingles[k] == "February"; assert Ingles[k][1..] == "ebruary"; }
    else if k == 2 { assert Ingles[k] == "March"; assert Ingles[k][1..] == "arch"; }
    else if k == 3 { assert Ingles[k] == "April"; assert Ingles[k][1..] == "pril"; }
    else if k == 4 { assert Ingles[k] == "May"; assert Ingles[k][1..] == "ay"; }
    else if k == 5 { assert Ingles[k] == "June"; assert Ingles[k][1..] == "une"; }
    else if k == 6 { assert Ingles[k] == "July"; assert Ingles[k][1..] == "uly"; }
    else if k == 7 { assert Ingles[k] == "August"; assert Ingles[k][1..] == "ugust"; }
    else if k == 8 { assert Ingles[k] == "September"; assert Ingles[k][1..] == "eptember"; }
    else if k == 9 { assert Ingles[k] == "October"; assert Ingles[k][1..] == "ctober"; }
    else if k == 10 { assert Ingles[k] == "November"; assert Ingles[k][1..] == "ovember"; }
    else { assert Ingles[k] == "December"; assert Ingles[k][1..] == "ecember"; }
  }

  lemma ClaveIngles(k: int)
    requires 0 <= k < 12
    ensures Clave(Ingles[k]) == k
  {
    if k == 0 { assert Ingles[k] == "January"; }
    else if k == 1 { assert Ingles[k] == "February"; }
    else if k == 2 { assert Ingles[k] == "March"; }
    else if k == 3 { assert Ingles[k] == "April"; }
    else if k == 4 { assert Ingles[k] == "May"; }
    else if k == 5 { assert Ingles[k] == "June"; }
    else if k == 6 { assert Ingles[k] == "July"; }
    else if k == 7 { assert Ingles[k] == "August"; }
    else if k == 8 { assert Ingles[k] == "September"; }
    else if k == 9 { assert Ingles[k] == "October"; }
    else if k == 10 { assert Ingles[k] == "November"; }
    else { assert Ingles[k] == "December"; }
  }

  lemma NombreEspanol(k: int)
    requires 0 <= k < 12
    ensures NombreDeMes(Espanol[k])
  {
    if k == 0 { assert Espanol[k] == "Enero"; assert Espanol[k][1..] == "nero"; }
    else if k == 1 { assert Espanol[k] == "Febrero"; assert Espanol[k][1..] == "ebrero"; }
    else if k == 2 { assert Espanol[k] == "Marzo"; assert Espanol[k][1..] == "arzo"; }
    else if k == 3 { assert Espanol[k] == "Abril"; assert Espanol[k][1..] == "bril"; }
    else if k == 4 { assert Espanol[k] == "Mayo"; assert Espanol[k][1..] == "ayo"; }
    else if k == 5 { assert Espanol[k] == "Junio"; assert Espanol[k][1..] == "unio"; }
    else if k == 6 { assert Espanol[k] == "Julio"; assert Espanol[k][1..] == "ulio"; }
    else if k == 7 { assert Espanol[k] == "Agosto"; assert Espanol[k][1..] == "gosto"; }
    else if k == 8 { assert Espanol[k] == "Septiembre"; assert Espanol[k][1..] == "eptiembre"; }
    else if k == 9 { assert Espanol[k] == "Octubre"; assert Espanol[k][1..] == "ctubre"; }
    else if k == 10 { assert Espanol[k] == "Noviembre"; assert Espanol[k][1..] == "oviembre"; }
    else { assert Espanol[k] == "Diciembre"; assert Espanol[k][1..] == "iciembre"; }
  }

  lemma ClaveEspanol(k: int)
    requires 0 <= k < 12
    ensures Clave(Espanol[k]) == (if k in {0, 3, 7, 11} then 100 + k else k)
  {
    if k == 0 { assert Espanol[k] == "Enero"; }
    else if k == 1 { assert Espanol[k] == "Febrero"; }
    else if k == 2 { assert Espanol[k] == "Marzo"; }
    else if k == 3 { assert Espanol[k] == "Abril"; }
    else if k == 4 { assert Espanol[k] == "Mayo"; }
    else if k == 5 { assert Espanol[k] == "Junio"; }
    else if k == 6 { assert Espanol[k] == "Julio"; }
    else if k == 7 { assert Espanol[k] == "Agosto"; }
    else if k == 8 { assert Espanol[k] == "Septiembre"; }
    else if k == 9 { assert Espanol[k] == "Octubre"; }
    else if k == 10 { assert Espanol[k] == "Noviembre"; }
    else { assert Espanol[k] == "Diciembre"; }
  }

  /** One replacement on "<pre><M><post>" where the pattern's first
      character occurs neither in `pre`, nor in `post`, nor after the first
      character of `M`: only `M` can change, and only if it is the
      pattern. */
  lemma ReemplazoCentral(pre: string, m: string, post: string, pat: string, rep: string)
    requires pat != [] && pat[0] !in pre && pat[0] !in post
    requires m == pat || (m != [] && pat[0] !in m[1..] && !StartsWith(m + post, pat))
    ensures ReplaceAll(pre + m + post, pat, rep) == pre + (if m == pat then rep else m) + post
  {
    assert pre + m + post == pre + (m + post);
    ReplaceAllSkip(pre, m + post, pat, rep);
    SinInicial(post, pat);
    ReplaceAbsent(post, pat, rep);
    var s := m + post;
    if m == pat {
      assert s[..|pat|] == pat;
      assert s[|pat|..] == post;
    } else {
      assert s[1..] == m[1..] + post;
      SinInicial(s[1..], pat);
      ReplaceAbsent(s[1..], pat, rep);
      if |s| >= |pat| {
        assert ReplaceAll(s, pat, rep) == [s[0]] + ReplaceAll(s[1..], pat, rep);
      }
      assert s == [s[0]] + s[1..];
    }
  }

  /** A string without the first character of a pattern does not hold the
      pattern. */
  lemma SinInicial(s: string, pat: string)
    requires pat != [] && pat[0] !in s
    ensures !Contains(s, pat)
  {
    assert pat[0] in pat;
    if Contains(s, pat) {
      ContainsChars(s, pat);
    }
  }

  /** A name that does not start like the pattern still does not once a
      space follows it, as long as the pattern holds no space. */
  lemma NoEmpieza(m: string, post: string, pat: string)
    requires post != [] && post[0] == ' ' && ' ' !in pat
    requires !StartsWith(m, pat)
    ensures !StartsWith(m + post, pat)
  {
    if |pat| <= |m| {
      assert (m + post)[..|pat|] == m[..|pat|];
    } else if |pat| <= |m + post| {
      assert (m + post)[..|pat|][|m|] == ' ';
      assert pat[|m|] != ' ';
    }
  }

  /** The month in a date after the first `k` pairs: an English name is
      replaced at its own step; a Spanish name stays as it is. */
  function MesTras(m: int, ingles: bool, k: nat): string
    requires 0 <= m < 12
  {
    if ingles && k <= m then Ingles[m] else Espanol[m]
  }

  /** The prefix and suffix around the month of a rendered date hold no
      upper-case letter. */
  predicate SinMayusculas(s: string) {
    forall c :: c in s ==> !IsUpperChar(c)
  }

  /** One step of the translation loop on "<pre><month><post>". */
  lemma PasoTraduccion(pre: string, m: int, ingles: bool, post: string, k: nat)
    requires 0 <= m < 12 && k < 12
    requires ingles || m in {0, 3, 7, 11}
    requires SinMayusculas(pre) && SinMayusculas(post) && post != [] && post[0] == ' '
    ensures ReplaceAll(pre + MesTras(m, ingles, k) + post, Ingles[k], Espanol[k])
            == pre + MesTras(m, ingles, k + 1) + post
  {
    var actual := MesTras(m, ingles, k);
    var pat := Ingles[k];
    NombreIngles(k);
    ClaveIngles(k);
    NombreIngles(m);
    ClaveIngles(m);
    NombreEspanol(m);
    ClaveEspanol(m);
    assert IsUpperChar(pat[0]);
    if actual != pat {
      assert Clave(actual) != k;
      ClaveDistinta(actual, pat);
      assert ' ' !in pat by {
        assert pat == [pat[0]] + pat[1..];
      }
      NoEmpieza(actual, post, pat);
      assert pat[0] !in actual[1..];
    } else {
      assert ingles && k == m;
    }
    ReemplazoCentral(pre, actual, post, pat, Espanol[k]);
  }

  /** The whole translation loop on "<pre><month><post>": an English name
      ends up in Spanish, everything around it unchanged. */
  lemma {:induction false} TraduccionCentral(pre: string, m: int, ingles: bool, post: string, k: nat)
    requires 0 <= m < 12 && k <= 12
    requires ingles || m in {0, 3, 7, 11}
    requires SinMayusculas(pre) && SinMayusculas(post) && post != [] && post[0] == ' '
    ensures Traducir(pre + MesTras(m, ingles, 0) + post, k) == pre + MesTras(m, ingles, k) + post
  {
    if k > 0 {
      TraduccionCentral(pre, m, ingles, post, k - 1);
      PasoTraduccion(pre, m, ingles, post, k - 1);
    }
  }

  lemma DigitosSinMayusculas(s: string)
    requires IsDigits(s)
    ensures SinMayusculas(s) && ' ' !in s
  {
  }

  /** The translation loop turns any rendered date into its Spanish form. */
  lemma TraducirFecha(f: Fecha)
    requires Valida(f)
    ensures Traducir(Strftime(f), 12) == EnEspanol(f)
  {
    var pre := TwoDigits(f.dia) + " de ";
    var post := " de " + NatToString(f.anio);
    DigitosSinMayusculas(TwoDigits(f.dia));
    DigitosSinMayusculas(NatToString(f.anio));
    assert Strftime(f) == pre + MesTras(f.mes - 1, true, 0) + post;
    TraduccionCentral(pre, f.mes - 1, true, post, 12);
    assert EnEspanol(f) == pre + MesTras(f.mes - 1, true, 12) + post;
  }

  /** The Spanish form of a date is left as it is by the rewrite. */
  lemma FormatearEspanol(f: Fecha)
    requires Valida(f)
    ensures FormatearPartes(EnEspanol(f)) == EnEspanol(f)
  {
    var d := TwoDigits(f.dia);
    var m := Espanol[f.mes - 1];
    var y := NatToString(f.anio);
    DigitosSinMayusculas(d);
    DigitosSinMayusculas(y);
    NombreEspanol(f.mes - 1);
    assert m == [m[0]] + m[1..];
    FormatearFecha(d, m, y);
    assert Lower(m[1..]) == m[1..] by {
      forall i | 0 <= i < |m[1..]| ensures Lower(m[1..])[i] == m[1..][i] {
        assert m[1..][i] in m[1..];
      }
    }
    assert Capitalize(m) == m;
  }

  lemma DefectoInicio()
    ensures Valida(Fecha(2024, 1, 1)) && EnEspanol(Fecha(2024, 1, 1)) == InicioPorDefecto
  {
    var f := Fecha(2024, 1, 1);
    assert Valida(f);
    assert EnEspanol(f) == "01" + " de " + "Enero" + " de " + "2024" by {
      Anio2024();
      assert TwoDigits(1) == "01";
      assert Espanol[0] == "Enero";
    }
  }

  lemma DefectoFin()
    ensures Valida(Fecha(2024, 12, 31)) && EnEspanol(Fecha(2024, 12, 31)) == FinPorDefecto
  {
    var f := Fecha(2024, 12, 31);
    assert Valida(f);
    assert EnEspanol(f) == "31" + " de " + "Diciembre" + " de " + "2024" by {
      Anio2024();
      assert TwoDigits(31) == "31";
      assert Espanol[11] == "Diciembre";
    }
  }

  lemma Anio2024()
    ensures NatToString(2024) == "2024"
  {
    assert NatToString(2) == "2";
    assert NatToString(20) == NatToString(2) + "0";
    assert NatToString(202) == NatToString(20) + "2";
    assert NatToString(2024) == NatToString(202) + "4";
  }

  /** A default date is already Spanish: the loop leaves it unchanged. */
  lemma TraducirDefecto(f: Fecha)
    requires f == Fecha(2024, 1, 1) || f == Fecha(2024, 12, 31)
    ensures Valida(f) && Traducir(EnEspanol(f), 12) == EnEspanol(f)
  {
    DefectoInicio();
    DefectoFin();
    var pre := TwoDigits(f.dia) + " de ";
    var post := " de " + NatToString(f.anio);
    DigitosSinMayusculas(TwoDigits(f.dia));
    DigitosSinMayusculas(NatToString(f.anio));
    assert EnEspanol(f) == pre + MesTras(f.mes - 1, false, 0) + post;
    TraduccionCentral(pre, f.mes - 1, false, post, 12);
  }

  /** The value `format_audit_dates` gives for one date: the rendered date,
      or the default, translated and rewritten. */
  function Formateada(f: Option<Fecha>, porDefecto: string): string
    requires f.Some? ==> Valida(f.value)
  {
    FormatearPartes(Traducir(if f.Some? then Strftime(f.value) else porDefecto, 12))
  }

  /** Each audit date comes out as "DD de <Spanish month> de YYYY"; a
      missing start is 1 January 2024 and a missing end 31 December 2024. */
  lemma FormateadaEs(f: Option<Fecha>, defecto: Fecha)
    requires f.Some? ==> Valida(f.value)
    requires defecto == Fecha(2024, 1, 1) || defecto == Fecha(2024, 12, 31)
    ensures Valida(defecto)
    ensures Formateada(f, EnEspanol(defecto)) == EnEspanol(if f.Some? then f.value else defecto)
  {
    DefectoInicio();
    DefectoFin();
    if f.Some? {
      TraducirFecha(f.value);
      FormatearEspanol(f.value);
    } else {
      TraducirDefecto(defecto);
      FormatearEspanol(defecto);
    }
  }

  /** `format_audit_dates(audit)` for the audit's start and end dates. */
  method FormatAuditDates(inicio: Option<Fecha>, fin: Option<Fecha>) returns (a: string, b: string)
    requires inicio.Some? ==> Valida(inicio.value)
    requires fin.Some? ==> Valida(fin.value)
    ensures a == Formateada(inicio, InicioPorDefecto)
    ensures b == Formateada(fin, FinPorDefecto)
    ensures a == EnEspanol(if inicio.Some? then inicio.value else Fecha(2024, 1, 1))
    ensures b == EnEspanol(if fin.Some? then fin.value else Fecha(2024, 12, 31))
  {
    var a0 := if inicio.Some? then Strftime(inicio.value) else InicioPorDefecto;
    var b0 := if fin.Some? then Strftime(fin.value) else FinPorDefecto;
    a, b := a0, b0;
    for k := 0 to 12
      invariant a == Traducir(a0, k) && b == Traducir(b0, k)
    {
      a := ReplaceAll(a, Ingles[k], Espanol[k]);
      b := ReplaceAll(b, Ingles[k], Espanol[k]);
    }
    a := FormatearPartes(a);
    b := FormatearPartes(b);
    DefectoInicio();
    DefectoFin();
    FormateadaEs(inicio, Fecha(2024, 1, 1));
    FormateadaEs(fin, Fecha(2024, 12, 31));
  }
}
