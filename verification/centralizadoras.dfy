/** The date helpers of the consolidating sheets
    (auditoria/processors/excel/centralizadoras/fechas.py): the semi-annual
    dates of the balances, the accounts of one section at one date, the
    dates of the oldest and newest year and the header cells they fill. */
module Centralizadoras {
  import opened Wrappers
  import opened Text
  import PyDict
  import Lex
  import SemestralDates
  import opened Worksheet

  type Balances = PyDict.Dict<string, real>

  /** `obtener_todas_fechas_semestrales`: a loop adds the date each key
      yields to a set, which is then sorted. The set is kept as the
      sequence of its insertions; sorting it without repeats depends only
      on its elements. */
  method ObtenerTodasFechasSemestrales(balances: Balances) returns (r: seq<string>)
    ensures r == SemestralDates.Fechas(balances)
  {
    ghost var keys := PyDict.Keys(balances);
    var fechas: seq<string> := [];
    for i := 0 to |balances|
      invariant fechas == SemestralDates.Found(keys[..i])
    {
      assert keys[..i + 1][..i] == keys[..i];
      var m := SemestralDates.SearchDate(balances[i].0);
      if m.Some? {
        fechas := fechas + [m.value];
      }
    }
    assert keys[..|balances|] == keys;
    r := Lex.SortedSet(fechas);
  }

  // ------------------------------------------------ accounts of a section

  /** The fixed start of the keys `filtrar_cuentas_por_seccion` accepts. */
  function SectionPrefix(fecha: string, seccion: string): string {
    "SEMESTRAL-" + fecha + "-" + seccion + "-"
  }

  /** `re.match(f'SEMESTRAL-{fecha}-{seccion}-(.*)', k)` and its group 1. */
  function AccountName(k: string, fecha: string, seccion: string): (r: Option<string>)
    ensures r.Some? <==> StartsWith(k, SectionPrefix(fecha, seccion))
    ensures r.Some? ==> r.value == UpToNewline(k[|SectionPrefix(fecha, seccion)|..])
  {
    var p := SectionPrefix(fecha, seccion);
    if StartsWith(k, p) then Some(UpToNewline(k[|p|..])) else None
  }

  /** A key made of the prefix and a one-line account name gives that name
      back. */
  lemma AccountNameOfKey(fecha: string, seccion: string, cuenta: string)
    requires '\n' !in cuenta
    ensures AccountName(SectionPrefix(fecha, seccion) + cuenta, fecha, seccion) == Some(cuenta)
  {
    var p := SectionPrefix(fecha, seccion);
    assert (p + cuenta)[..|p|] == p && (p + cuenta)[|p|..] == cuenta;
  }

  /** The (name, value) pairs the loop assigns, in iteration order. */
  function Filtered(balances: Balances, fecha: string, seccion: string): (r: seq<(string, real)>)
    ensures |r| <= |balances|
    ensures forall e :: e in r ==>
      (exists i :: 0 <= i < |balances| && AccountName(balances[i].0, fecha, seccion) == Some(e.0) && balances[i].1 == e.1)
  {
    if balances == [] then []
    else
      var init := Filtered(balances[..|balances| - 1], fecha, seccion);
      var (k, v) := balances[|balances| - 1];
      assert forall i :: 0 <= i < |balances| - 1 ==> balances[..|balances| - 1][i] == balances[i];
      match AccountName(k, fecha, seccion)
      case None => init
      case Some(n) => init + [(n, v)]
  }

  /** `filtrar_cuentas_por_seccion`: each matching key's account name mapped
      to its value; when two keys give the same name the later one wins. */
  method FiltrarCuentasPorSeccion(balances: Balances, fecha: string, seccion: string)
    returns (d: PyDict.Dict<string, real>)
    ensures d == PyDict.FromPairs(Filtered(balances, fecha, seccion))
  {
    d := [];
    for i := 0 to |balances|
      invariant d == PyDict.FromPairs(Filtered(balances[..i], fecha, seccion))
    {
      assert balances[..i + 1][..i] == balances[..i];
      var (clave, valor) := balances[i];
      var m := AccountName(clave, fecha, seccion);
      if m.Some? {
        assert Filtered(balances[..i + 1], fecha, seccion) == Filtered(balances[..i], fecha, seccion) + [(m.value, valor)];
        d := PyDict.Put(d, m.value, valor);
      }
    }
    assert balances[..|balances|] == balances;
  }

  /** Looking an account up in the result gives the value of the last key
      that names it, and nothing for a name no key gives. */
  lemma FiltrarGet(balances: Balances, fecha: string, seccion: string, cuenta: string)
    ensures PyDict.Get(PyDict.FromPairs(Filtered(balances, fecha, seccion)), cuenta) ==
            PyDict.LastValue(Filtered(balances, fecha, seccion), cuenta)
  {
    PyDict.GetFromPairs(Filtered(balances, fecha, seccion), cuenta);
  }

  // ------------------------------------------------- dates for the headers

  /** `fecha.split('-')[0]` */
  function Year(f: string): string {
    Split(f, '-')[0]
  }

  /** The year of each date, in order. */
  function YearsOf(fechas: seq<string>): (ys: seq<string>)
    ensures |ys| == |fechas| && forall i :: 0 <= i < |fechas| ==> ys[i] == Year(fechas[i])
  {
    seq(|fechas|, i requires 0 <= i < |fechas| => Year(fechas[i]))
  }

  /** `fechas_por_año[y]`: the dates of year `y`, in order, repeats kept. */
  function OfYear(fechas: seq<string>, y: string): seq<string> {
    if fechas == [] then []
    else
      var init := OfYear(fechas[..|fechas| - 1], y);
      var f := fechas[|fechas| - 1];
      if Year(f) == y then init + [f] else init
  }

  /** The list of a year holds exactly the dates of that year, and is empty
      exactly when no date is of that year. */
  lemma {:induction false} OfYearMembers(fechas: seq<string>, y: string)
    ensures forall f :: f in OfYear(fechas, y) <==> f in fechas && Year(f) == y
    ensures OfYear(fechas, y) != [] <==> y in YearsOf(fechas)
  {
    if fechas != [] {
      var init := fechas[..|fechas| - 1];
      OfYearMembers(init, y);
      assert fechas == init + [fechas[|fechas| - 1]];
      assert YearsOf(fechas) == YearsOf(init) + [Year(fechas[|fechas| - 1])];
    }
  }

  /** The `while` loop: a list shorter than 3 is padded by repeating its last
      element ("" for an empty list). */
  function Padded(xs: seq<string>): (r: seq<string>)
    ensures |r| == if |xs| >= 3 then |xs| else 3
    ensures r[..|xs|] == xs
    ensures forall i :: |xs| <= i < |r| ==> r[i] == if xs == [] then "" else xs[|xs| - 1]
    decreases 3 - |xs|
  {
    if |xs| >= 3 then xs
    else
      var r := Padded(xs + [if xs == [] then "" else xs[|xs| - 1]]);
      assert r[..|xs|] == r[..|xs| + 1][..|xs|];
      r
  }

  /** The tuple `preparar_fechas_excel` returns. */
  datatype Preparadas = Preparadas(fechasAnoViejo: seq<string>, fechaMasReciente: string,
                                   anoMasViejo: string, anoMasReciente: string,
                                   fechasExcel: PyDict.Dict<string, string>)

  /** The header cells and their labels. */
  function Encabezados(viejo: string, reciente: string): PyDict.Dict<string, string> {
    [("D12", "Al 01/01/" + viejo), ("E12", "Al 31/07/" + viejo),
     ("F12", "Al 31/12/" + viejo), ("I12", "Al 31/12/" + reciente)]
  }

  /** `preparar_fechas_excel`: the dates of the oldest year, sorted and padded
      to three; the greatest date of the newest year; both years; and the
      header labels. */
  function Preparar(fechas: seq<string>): (r: Preparadas)
    ensures fechas == [] ==> r == Preparadas([], "", "", "", [])
    ensures r.fechasExcel == if fechas == [] then [] else Encabezados(r.anoMasViejo, r.anoMasReciente)
  {
    var anos := Lex.SortedSet(YearsOf(fechas));
    if anos == [] then Preparadas([], "", "", "", [])
    else
      var viejo, reciente := anos[0], anos[|anos| - 1];
      var recientes := Lex.Sort(OfYear(fechas, reciente));
      var ultima := if recientes == [] then "" else recientes[|recientes| - 1];
      Preparadas(Padded(Lex.Sort(OfYear(fechas, viejo))), ultima, viejo, reciente, Encabezados(viejo, reciente))
  }

  /** With dates given, the first and last of the sorted years bound every
      date's year. */
  lemma PrepararYears(fechas: seq<string>)
    requires fechas != []
    ensures var r := Preparar(fechas);
      r.anoMasViejo in YearsOf(fechas) && r.anoMasReciente in YearsOf(fechas) &&
      (forall f :: f in fechas ==> Year(f) == r.anoMasViejo || Lex.Less(r.anoMasViejo, Year(f))) &&
      (forall f :: f in fechas ==> Year(f) == r.anoMasReciente || Lex.Less(Year(f), r.anoMasReciente))
  {
    var anos := Lex.SortedSet(YearsOf(fechas));
    assert Year(fechas[0]) in YearsOf(fechas);
    assert anos != [];
    forall f | f in fechas ensures Year(f) == anos[0] || Lex.Less(anos[0], Year(f)) {
      var i :| 0 <= i < |fechas| && fechas[i] == f;
      assert Year(f) in YearsOf(fechas);
      var j :| 0 <= j < |anos| && anos[j] == Year(f);
    }
    forall f | f in fechas ensures Year(f) == anos[|anos| - 1] || Lex.Less(Year(f), anos[|anos| - 1]) {
      var i :| 0 <= i < |fechas| && fechas[i] == f;
      assert Year(f) in YearsOf(fechas);
      var j :| 0 <= j < |anos| && anos[j] == Year(f);
    }
  }

  /** The oldest year's dates come sorted, then padded with the last of them
      up to three entries. */
  lemma PrepararViejas(fechas: seq<string>)
    requires fechas != []
    ensures var r := Preparar(fechas);
      var viejas := OfYear(fechas, r.anoMasViejo);
      viejas != [] && |r.fechasAnoViejo| >= 3 && Lex.Sorted(r.fechasAnoViejo[..|viejas|]) &&
      multiset(r.fechasAnoViejo[..|viejas|]) == multiset(viejas) &&
      forall i :: |viejas| <= i < |r.fechasAnoViejo| ==> r.fechasAnoViejo[i] == r.fechasAnoViejo[|viejas| - 1]
  {
    PrepararYears(fechas);
    var r := Preparar(fechas);
    var viejas := OfYear(fechas, r.anoMasViejo);
    OfYearMembers(fechas, r.anoMasViejo);
    var sorted := Lex.Sort(viejas);
    assert |sorted| == |multiset(sorted)| == |viejas|;
    assert r.fechasAnoViejo[..|viejas|] == sorted;
  }

  /** The newest date is a date of the newest year no smaller than any
      other date of that year. */
  lemma PrepararReciente(fechas: seq<string>)
    requires fechas != []
    ensures var r := Preparar(fechas);
      r.fechaMasReciente in fechas && Year(r.fechaMasReciente) == r.anoMasReciente &&
      forall f :: f in fechas && Year(f) == r.anoMasReciente ==> f == r.fechaMasReciente || Lex.Less(f, r.fechaMasReciente)
  {
    PrepararYears(fechas);
    var r := Preparar(fechas);
    var recientes := OfYear(fechas, r.anoMasReciente);
    OfYearMembers(fechas, r.anoMasReciente);
    LastOfSorted(recientes, Lex.Sort(recientes));
  }

  /** The last of `sorted(xs)` is the greatest element of `xs`. */
  lemma LastOfSorted(xs: seq<string>, s: seq<string>)
    requires xs != [] && s == Lex.Sort(xs)
    ensures s != [] && s[|s| - 1] in xs
    ensures forall f :: f in xs ==> f == s[|s| - 1] || Lex.Less(f, s[|s| - 1])
  {
    assert |s| == |multiset(s)| == |xs|;
    assert s[|s| - 1] in multiset(xs);
    Lex.SortedLast(s);
    forall f | f in xs ensures f in s {
      assert f in multiset(s);
    }
  }

  /** The list `fechas_por_año[y]` holds after the grouping loop, or
      nothing when no date is of year `y`. */
  function Group(fechas: seq<string>, y: string): Option<seq<string>> {
    if OfYear(fechas, y) == [] then None else Some(OfYear(fechas, y))
  }

  /** The dictionary holds, for each year, the dates of that year. */
  ghost predicate Grouped(porAno: PyDict.Dict<string, seq<string>>, fechas: seq<string>) {
    forall y :: PyDict.Get(porAno, y) == Group(fechas, y)
  }

  lemma OfYearSnoc(fechas: seq<string>, i: nat, y: string)
    requires i < |fechas|
    ensures OfYear(fechas[..i + 1], y) == OfYear(fechas[..i], y) + if Year(fechas[i]) == y then [fechas[i]] else []
  {
    assert fechas[..i + 1][..i] == fechas[..i];
  }

  /** The grouping loop of `preparar_fechas_excel`: each date appended to the
      list of its year, a year's list created on its first date. */
  method AgruparPorAno(fechas: seq<string>) returns (porAno: PyDict.Dict<string, seq<string>>)
    ensures Grouped(porAno, fechas)
  {
    porAno := [];
    for i := 0 to |fechas|
      invariant Grouped(porAno, fechas[..i])
    {
      var ano := Year(fechas[i]);
      var actual := PyDict.Get(porAno, ano);
      var lista := if actual.None? then [] else actual.value;
      assert lista == OfYear(fechas[..i], ano);
      forall y ensures PyDict.Get(PyDict.Put(porAno, ano, lista + [fechas[i]]), y) == Group(fechas[..i + 1], y) {
        PyDict.GetPut(porAno, ano, lista + [fechas[i]], y);
        OfYearSnoc(fechas, i, y);
        if y != ano {
          assert PyDict.Get(porAno, y) == Group(fechas[..i], y);
          assert OfYear(fechas[..i + 1], y) == OfYear(fechas[..i], y);
        } else {
          assert OfYear(fechas[..i + 1], y) == lista + [fechas[i]];
        }
      }
      porAno := PyDict.Put(porAno, ano, lista + [fechas[i]]);
    }
    assert fechas[..|fechas|] == fechas;
  }

  /** The years of the dictionary, sorted, are the sorted years of the dates. */
  lemma GroupedYears(porAno: PyDict.Dict<string, seq<string>>, fechas: seq<string>)
    requires Grouped(porAno, fechas)
    ensures Lex.SortedSet(PyDict.Keys(porAno)) == Lex.SortedSet(YearsOf(fechas))
  {
    forall y ensures y in PyDict.Keys(porAno) <==> y in YearsOf(fechas) {
      KeysHasKey(porAno, y);
      OfYearMembers(fechas, y);
      assert PyDict.Get(porAno, y) == Group(fechas, y);
    }
    Lex.SortedUnique(Lex.SortedSet(PyDict.Keys(porAno)), Lex.SortedSet(YearsOf(fechas)));
  }

  /** `preparar_fechas_excel` as written: the grouping loop, the sorted years,
      then the `while` loop that pads the oldest year's list. */
  method PrepararFechasExcel(fechas: seq<string>) returns (r: Preparadas)
    ensures r == Preparar(fechas)
  {
    var porAno := AgruparPorAno(fechas);
    var anos := Lex.SortedSet(PyDict.Keys(porAno));
    GroupedYears(porAno, fechas);
    if anos == [] {
      return Preparadas([], "", "", "", []);
    }
    var viejo, reciente := anos[0], anos[|anos| - 1];
    OfYearMembers(fechas, viejo);
    OfYearMembers(fechas, reciente);
    assert PyDict.Get(porAno, viejo) == Group(fechas, viejo);
    assert PyDict.Get(porAno, reciente) == Group(fechas, reciente);
    var viejas := Lex.Sort(PyDict.Get(porAno, viejo).value);
    while |viejas| < 3
      invariant Padded(viejas) == Padded(Lex.Sort(OfYear(fechas, viejo)))
      decreases 3 - |viejas|
    {
      if viejas != [] {
        viejas := viejas + [viejas[|viejas| - 1]];
      } else {
        viejas := viejas + [""];
      }
    }
    var recientes := Lex.Sort(PyDict.Get(porAno, reciente).value);
    LastOfSorted(OfYear(fechas, reciente), recientes);
    r := Preparadas(viejas, recientes[|recientes| - 1], viejo, reciente, Encabezados(viejo, reciente));
  }

  /** A key is listed among the keys exactly when looking it up finds it. */
  lemma KeysHasKey<V>(d: PyDict.Dict<string, V>, y: string)
    ensures y in PyDict.Keys(d) <==> PyDict.Get(d, y).Some?
  {
    if y in PyDict.Keys(d) {
      var i :| 0 <= i < |d| && PyDict.Keys(d)[i] == y;
      assert d[i].0 == y;
    }
  }

  // ------------------------------------------------------- header cells

  /** The sheet after `sheet[celda] = fecha` for each entry, in order. */
  function WriteLabels(st: State, items: PyDict.Dict<string, string>): State
    requires forall i :: 0 <= i < |items| ==> CellAddress(items[i].0).Some?
    decreases |items|
  {
    if items == [] then st
    else
      var a := CellAddress(items[0].0).value;
      WriteLabels(Write(st, a.0, a.1, Str(items[0].1)), items[1..])
  }

  /** `insertar_fechas_en_celdas`; the centring of each cell is not modelled. */
  method InsertarFechasEnCeldas(sheet: Sheet, fechasExcel: PyDict.Dict<string, string>)
    requires forall i :: 0 <= i < |fechasExcel| ==> CellAddress(fechasExcel[i].0).Some?
    modifies sheet
    ensures sheet.View() == WriteLabels(old(sheet.View()), fechasExcel)
  {
    for i := 0 to |fechasExcel|
      invariant WriteLabels(sheet.View(), fechasExcel[i..]) == WriteLabels(old(sheet.View()), fechasExcel)
    {
      var (celda, fecha) := fechasExcel[i];
      var a := CellAddress(celda).value;
      assert fechasExcel[i..][1..] == fechasExcel[i + 1..];
      sheet.Set(a.0, a.1, Str(fecha));
    }
  }

  /** The header cells named in `preparar_fechas_excel`. */
  lemma HeaderAddresses()
    ensures CellAddress("D12") == Some((12, 4)) && CellAddress("E12") == Some((12, 5))
    ensures CellAddress("F12") == Some((12, 6)) && CellAddress("I12") == Some((12, 9))
  {
    assert NatToString(12) == "12" by {
      assert NatToString(1) == "1";
    }
    assert "D12" == ['D'] + NatToString(12) && "E12" == ['E'] + NatToString(12);
    assert "F12" == ['F'] + NatToString(12) && "I12" == ['I'] + NatToString(12);
    OneLetterAddress('D', 12);
    OneLetterAddress('E', 12);
    OneLetterAddress('F', 12);
    OneLetterAddress('I', 12);
  }

  lemma OneLetterAddress(l: char, n: nat)
    requires 'A' <= l <= 'Z' && n >= 1
    ensures CellAddress([l] + NatToString(n)) == Some((n as int, l as int - 'A' as int + 1))
  {
    var s := [l] + NatToString(n);
    LettersThenDigits([l], NatToString(n));
    assert s[..1] == [l] && s[1..] == NatToString(n);
    assert ColumnValue([l]) == l as int - 'A' as int + 1 by { assert [l][..0] == []; }
    NatToStringValue(n);
  }

  /** Writing the headers puts "Al 01/01/", "Al 31/07/" and "Al 31/12/" of
      the oldest year in D12, E12 and F12, "Al 31/12/" of the newest year in
      I12, and leaves every other cell alone. */
  lemma HeadersWritten(st: State, viejo: string, reciente: string)
    ensures forall i :: 0 <= i < 4 ==> CellAddress(Encabezados(viejo, reciente)[i].0).Some?
    ensures var w := WriteLabels(st, Encabezados(viejo, reciente));
      CellOf(w.rows, 12, 4) == Some(Str("Al 01/01/" + viejo)) &&
      CellOf(w.rows, 12, 5) == Some(Str("Al 31/07/" + viejo)) &&
      CellOf(w.rows, 12, 6) == Some(Str("Al 31/12/" + viejo)) &&
      CellOf(w.rows, 12, 9) == Some(Str("Al 31/12/" + reciente)) &&
      forall r, c {:trigger CellOf(w.rows, r, c)} :: r != 12 || (c != 4 && c != 5 && c != 6 && c != 9) ==> CellOf(w.rows, r, c) == CellOf(st.rows, r, c)
  {
    HeaderAddresses();
    var e := Encabezados(viejo, reciente);
    var s1 := Write(st, 12, 4, Str(e[0].1));
    var s2 := Write(s1, 12, 5, Str(e[1].1));
    var s3 := Write(s2, 12, 6, Str(e[2].1));
    var s4 := Write(s3, 12, 9, Str(e[3].1));
    assert WriteLabels(st, e) == WriteLabels(s1, e[1..]);
    assert WriteLabels(s1, e[1..]) == WriteLabels(s2, e[2..]) by { assert e[1..][0] == e[1] && e[1..][1..] == e[2..]; }
    assert WriteLabels(s2, e[2..]) == WriteLabels(s3, e[3..]) by { assert e[2..][0] == e[2] && e[2..][1..] == e[3..]; }
    assert WriteLabels(s3, e[3..]) == s4 by { assert e[3..][0] == e[3] && e[3..][1..] == []; }
  }
}
