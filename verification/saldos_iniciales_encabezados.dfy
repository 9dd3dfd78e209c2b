/** The date headers of the initial-balance test sheet
    (auditoria/processors/excel/initial_balance_tests/sheet_processing.py,
    `actualizar_fechas_encabezados`): in rows 1 to 49, columns 1 to 9, the
    placeholder "31/12/AAAA" becomes the balance date and "01/01/AAAA" the
    date of the initial balances. */
module SaldosInicialesEncabezados {
  import opened Wrappers
  import opened Text
  import opened Worksheet

  const MarcaBalance := "31/12/AAAA"
  const MarcaSaldos := "01/01/AAAA"

  /** Python's truth value of an optional text: present and not empty. */
  predicate Verdadera(t: Option<string>) {
    t.Some? && t.value != ""
  }

  // ------------------------------------------------------------ the dates

  /** The balance date as "DD/MM/YYYY" from "YYYY-MM-DD"; the text itself
      when it does not have three fields; the placeholder without a date. */
  function FechaBalanceFormateada(fb: Option<string>): string {
    if Verdadera(fb) then
      var partes := Split(fb.value, '-');
      if |partes| == 3 then partes[2] + "/" + partes[1] + "/" + partes[0] else fb.value
    else MarcaBalance
  }

  /** `int(s)` on text: surrounding whitespace, an optional sign, then ASCII
      digits; None where Python raises ValueError. */
  function PyInt(s: string): (r: Option<int>)
    ensures r.Some? ==> Strip(s) != []
  {
    var t := Strip(s);
    if t != [] && (t[0] == '+' || t[0] == '-') && IsDigits(t[1..]) then
      Some(if t[0] == '-' then -(DigitsValue(t[1..]) as int) else DigitsValue(t[1..]))
    else if IsDigits(t) then Some(DigitsValue(t))
    else None
  }

  /** `int(str(n)) == n` */
  lemma PyIntNat(n: nat)
    ensures PyInt(NatToString(n)) == Some(n)
  {
    var t := NatToString(n);
    assert IsDigit(t[0]) && IsDigit(t[|t| - 1]);
    StripUnchanged(t);
    NatToStringValue(n);
  }

  /** The initial-balance date as "01/01/YYYY": the year of that date when it
      has three fields, else the balance year plus one (0 plus one without a
      balance date), and the placeholder when the balance year is not an
      integer. The first field of a split always exists, so the IndexError
      the source also catches cannot happen. */
  function FechaSaldosFormateada(fs: Option<string>, fb: Option<string>): string {
    if Verdadera(fs) && '-' in fs.value && |Split(fs.value, '-')| == 3 then
      "01/01/" + Split(fs.value, '-')[0]
    else
      var anio := if Verdadera(fb) then PyInt(Split(fb.value, '-')[0]) else Some(0);
      if anio.None? then MarcaSaldos else "01/01/" + IntToString(anio.value + 1)
  }

  /** A three-field date "YYYY-MM-DD" becomes "DD/MM/YYYY". */
  lemma FechaBalanceIso(y: string, m: string, d: string)
    requires '-' !in y && '-' !in m && '-' !in d
    ensures FechaBalanceFormateada(Some(y + "-" + m + "-" + d)) == d + "/" + m + "/" + y
  {
    Join3(y, m, d, "-");
    SplitJoin([y, m, d], '-');
    assert (y + "-" + m + "-" + d)[|y|] == '-';
  }

  /** A three-field initial-balance date gives "01/01/" and its own year,
      whatever the balance date. */
  lemma FechaSaldosIso(y: string, m: string, d: string, fb: Option<string>)
    requires '-' !in y && '-' !in m && '-' !in d
    ensures FechaSaldosFormateada(Some(y + "-" + m + "-" + d), fb) == "01/01/" + y
  {
    Join3(y, m, d, "-");
    SplitJoin([y, m, d], '-');
    assert (y + "-" + m + "-" + d)[|y|] == '-';
  }

  /** Otherwise the year after the balance year. */
  lemma FechaSaldosSiguiente(fs: Option<string>, anio: nat, resto: string)
    requires !(Verdadera(fs) && '-' in fs.value && |Split(fs.value, '-')| == 3)
    ensures FechaSaldosFormateada(fs, Some(NatToString(anio) + "-" + resto)) == "01/01/" + NatToString(anio + 1)
  {
    var y := NatToString(anio);
    assert '-' !in y by {
      forall i | 0 <= i < |y| ensures y[i] != '-' {
        assert IsDigit(y[i]);
      }
    }
    SplitHead(y, '-', resto);
    assert y + "-" + resto == y + ['-'] + resto;
    PyIntNat(anio);
  }

  /** A balance year that is not an integer leaves the placeholder. */
  lemma FechaSaldosInvalida(fs: Option<string>, y: string, resto: string)
    requires !(Verdadera(fs) && '-' in fs.value && |Split(fs.value, '-')| == 3)
    requires '-' !in y && PyInt(y).None?
    ensures FechaSaldosFormateada(fs, Some(y + "-" + resto)) == MarcaSaldos
  {
    SplitHead(y, '-', resto);
    assert y + "-" + resto == y + ['-'] + resto;
  }

  // ----------------------------------------------------------- one cell

  /** Replacing a text by itself changes nothing. */
  lemma {:induction false} ReemplazoIdentico(s: string, p: string)
    requires p != []
    ensures ReplaceAll(s, p, p) == s
    decreases |s|
  {
    if |s| >= |p| {
      if s[..|p|] == p {
        ReemplazoIdentico(s[|p|..], p);
        assert s == p + s[|p|..];
      } else {
        ReemplazoIdentico(s[1..], p);
        assert s == [s[0]] + s[1..];
      }
    }
  }

  /** A cell after the loop body, as written: each placeholder present is
      replaced in the cell's ORIGINAL text, so when both are present the
      second write, made from the original text, wins. */
  function NuevaCelda(v: Option<Value>, fBal: string, fSal: string): Option<Value> {
    if v.Some? && v.value.Str? then
      var t := v.value.s;
      if Contains(t, MarcaSaldos) then Some(Str(ReplaceAll(t, MarcaSaldos, fSal)))
      else if Contains(t, MarcaBalance) then Some(Str(ReplaceAll(t, MarcaBalance, fBal)))
      else v
    else v
  }

  /** A cell after the loop body as evidently intended: the second
      replacement starts from the result of the first. */
  function NuevaCeldaCorregida(v: Option<Value>, fBal: string, fSal: string): Option<Value> {
    if v.Some? && v.value.Str? then
      var t := v.value.s;
      var t1 := if Contains(t, MarcaBalance) then ReplaceAll(t, MarcaBalance, fBal) else t;
      Some(Str(if Contains(t1, MarcaSaldos) then ReplaceAll(t1, MarcaSaldos, fSal) else t1))
    else v
  }

  /** Without a balance date a header keeps its placeholder. */
  lemma SinFechaBalance(t: string, fSal: string)
    requires !Contains(t, MarcaSaldos)
    ensures NuevaCelda(Some(Str(t)), FechaBalanceFormateada(None), fSal) == Some(Str(t))
  {
    ReemplazoIdentico(t, MarcaBalance);
  }

  /** Neither placeholder occurs in the other. */
  lemma MarcasDistintas()
    ensures !Contains(MarcaBalance, MarcaSaldos) && !Contains(MarcaSaldos, MarcaBalance)
  {
    assert '0' in MarcaSaldos && '0' !in MarcaBalance;
    assert '3' in MarcaBalance && '3' !in MarcaSaldos;
    if Contains(MarcaBalance, MarcaSaldos) {
      ContainsChars(MarcaBalance, MarcaSaldos);
    }
    if Contains(MarcaSaldos, MarcaBalance) {
      ContainsChars(MarcaSaldos, MarcaBalance);
    }
  }

  /** Replacing at the head: "<pat><rest>" becomes "<rep>" and the
      replacement of the rest. */
  lemma ReemplazoInicial(pat: string, resto: string, rep: string)
    requires pat != []
    ensures ReplaceAll(pat + resto, pat, rep) == rep + ReplaceAll(resto, pat, rep)
  {
    var s := pat + resto;
    assert s[..|pat|] == pat;
    assert s[|pat|..] == resto;
  }

  /** In "<ps> <pb>", replacing `ps` gives "<rep> <pb>" when `pb` does not
      hold `ps`. */
  lemma ReemplazoPrimera(ps: string, pb: string, rep: string)
    requires ps != [] && ps[0] != ' ' && !Contains(pb, ps)
    ensures Contains(ps + " " + pb, ps)
    ensures ReplaceAll(ps + " " + pb, ps, rep) == rep + " " + pb
  {
    assert ps + " " + pb == ps + (" " + pb);
    assert (ps + " " + pb)[..|ps|] == ps;
    ReemplazoInicial(ps, " " + pb, rep);
    ReplaceAllSkip(" ", pb, ps, rep);
    ReplaceAbsent(pb, ps, rep);
  }

  /** In "<ps> <pb>", replacing `pb` gives "<ps> <rep>" when no character
      of "<ps> " starts `pb`. */
  lemma ReemplazoSegunda(ps: string, pb: string, rep: string)
    requires pb != [] && pb[0] !in ps + " "
    ensures Contains(ps + " " + pb, pb)
    ensures ReplaceAll(ps + " " + pb, pb, rep) == ps + " " + rep
  {
    var t := ps + " " + pb;
    assert t[|ps| + 1..] == pb;
    ContainsAt(t, pb, |ps| + 1);
    ReplaceAllSkip(ps + " ", pb, pb, rep);
    ReemplazoInicial(pb, [], rep);
    assert pb + [] == pb;
  }

  /** "01/01/AAAA 31/12/AAAA" loses its balance date as written: the second
      write starts from the original text. */
  lemma EncabezadoComoEscrito(fBal: string, fSal: string)
    ensures NuevaCelda(Some(Str(MarcaSaldos + " " + MarcaBalance)), fBal, fSal) == Some(Str(fSal + " " + MarcaBalance))
  {
    MarcasDistintas();
    ReemplazoPrimera(MarcaSaldos, MarcaBalance, fSal);
  }

  /** Corrected, both dates reach the header, provided the balance date does
      not itself hold the other placeholder. */
  lemma EncabezadoCorregido(fBal: string, fSal: string)
    requires !Contains(fBal, MarcaSaldos)
    ensures NuevaCeldaCorregida(Some(Str(MarcaSaldos + " " + MarcaBalance)), fBal, fSal) == Some(Str(fSal + " " + fBal))
  {
    assert MarcaBalance[0] !in MarcaSaldos + " ";
    ReemplazoSegunda(MarcaSaldos, MarcaBalance, fBal);
    ReemplazoPrimera(MarcaSaldos, fBal, fSal);
  }

  // ---------------------------------------------------------- the sheet

  /** One visit of the loop: each placeholder the cell's text holds is
      replaced in that same text and written back, the balance date first. */
  function PasoEncabezado(st: State, r: int, c: int, fBal: string, fSal: string): State
    requires r >= 1 && c >= 1
  {
    var v := CellOf(st.rows, r, c);
    if v.Some? && v.value.Str? then
      var t := v.value.s;
      var st1 := if Contains(t, MarcaBalance) then Write(st, r, c, Str(ReplaceAll(t, MarcaBalance, fBal))) else st;
      if Contains(t, MarcaSaldos) then Write(st1, r, c, Str(ReplaceAll(t, MarcaSaldos, fSal))) else st1
    else st
  }

  /** The visit changes its own cell to `NuevaCelda` and no other. */
  lemma PasoEncabezadoCelda(st: State, r: int, c: int, fBal: string, fSal: string, r': int, c': int)
    requires r >= 1 && c >= 1
    ensures CellOf(PasoEncabezado(st, r, c, fBal, fSal).rows, r', c') ==
      if r' == r && c' == c then NuevaCelda(CellOf(st.rows, r, c), fBal, fSal) else CellOf(st.rows, r', c')
  {
  }

  /** Columns `c` to 9 of row `r`. */
  function EncabezadosFila(st: State, r: int, c: int, fBal: string, fSal: string): State
    requires r >= 1 && c >= 1
    decreases 10 - c
  {
    if c >= 10 then st else EncabezadosFila(PasoEncabezado(st, r, c, fBal, fSal), r, c + 1, fBal, fSal)
  }

  /** Rows `r` to 49. */
  function EncabezadosDesde(st: State, r: int, fBal: string, fSal: string): State
    requires r >= 1
    decreases 50 - r
  {
    if r >= 50 then st else EncabezadosDesde(EncabezadosFila(st, r, 1, fBal, fSal), r + 1, fBal, fSal)
  }

  /** The sheet after `actualizar_fechas_encabezados`. */
  function Encabezados(st: State, fb: Option<string>, fs: Option<string>): State {
    EncabezadosDesde(st, 1, FechaBalanceFormateada(fb), FechaSaldosFormateada(fs, fb))
  }

  lemma {:induction false} EncabezadosFilaCelda(st: State, r: int, c: int, fBal: string, fSal: string, r': int, c': int)
    requires r >= 1 && c >= 1
    ensures CellOf(EncabezadosFila(st, r, c, fBal, fSal).rows, r', c') ==
      if r' == r && c <= c' < 10 then NuevaCelda(CellOf(st.rows, r', c'), fBal, fSal) else CellOf(st.rows, r', c')
    decreases 10 - c
  {
    if c < 10 {
      var st1 := PasoEncabezado(st, r, c, fBal, fSal);
      EncabezadosFilaCelda(st1, r, c + 1, fBal, fSal, r', c');
      PasoEncabezadoCelda(st, r, c, fBal, fSal, r', c');
    }
  }

  lemma {:induction false} EncabezadosDesdeCelda(st: State, r: int, fBal: string, fSal: string, r': int, c': int)
    requires r >= 1
    ensures CellOf(EncabezadosDesde(st, r, fBal, fSal).rows, r', c') ==
      if r <= r' < 50 && 1 <= c' < 10 then NuevaCelda(CellOf(st.rows, r', c'), fBal, fSal) else CellOf(st.rows, r', c')
    decreases 50 - r
  {
    if r < 50 {
      var st1 := EncabezadosFila(st, r, 1, fBal, fSal);
      EncabezadosDesdeCelda(st1, r + 1, fBal, fSal, r', c');
      EncabezadosFilaCelda(st, r, 1, fBal, fSal, r', c');
    }
  }

  /** Every cell in rows 1 to 49, columns 1 to 9, gets its placeholders
      replaced as `NuevaCelda` says; every other cell is unchanged. */
  lemma EncabezadosCelda(st: State, fb: Option<string>, fs: Option<string>, r: int, c: int)
    ensures CellOf(Encabezados(st, fb, fs).rows, r, c) ==
      if 1 <= r < 50 && 1 <= c < 10 then NuevaCelda(CellOf(st.rows, r, c), FechaBalanceFormateada(fb), FechaSaldosFormateada(fs, fb))
      else CellOf(st.rows, r, c)
  {
    EncabezadosDesdeCelda(st, 1, FechaBalanceFormateada(fb), FechaSaldosFormateada(fs, fb), r, c);
  }

  /** The body of the loop for row `r`, column `c`. */
  method VisitarCelda(sheet: Sheet, r: int, c: int, fBal: string, fSal: string)
    requires r >= 1 && c >= 1
    modifies sheet
    ensures sheet.View() == PasoEncabezado(old(sheet.View()), r, c, fBal, fSal)
  {
    var v := CellOf(sheet.rows, r, c);
    if v.Some? && v.value.Str? {
      var t := v.value.s;
      if Contains(t, MarcaBalance) {
        sheet.Set(r, c, Str(ReplaceAll(t, MarcaBalance, fBal)));
      }
      if Contains(t, MarcaSaldos) {
        sheet.Set(r, c, Str(ReplaceAll(t, MarcaSaldos, fSal)));
      }
    }
  }

  /** The inner loop: columns 1 to 9 of row `r`. */
  method VisitarFila(sheet: Sheet, r: int, fBal: string, fSal: string)
    requires r >= 1
    modifies sheet
    ensures sheet.View() == EncabezadosFila(old(sheet.View()), r, 1, fBal, fSal)
  {
    for c := 1 to 10
      invariant EncabezadosFila(sheet.View(), r, c, fBal, fSal) == EncabezadosFila(old(sheet.View()), r, 1, fBal, fSal)
    {
      VisitarCelda(sheet, r, c, fBal, fSal);
    }
  }

  lemma DesdeUnfold(st: State, r: int, fBal: string, fSal: string)
    requires 1 <= r < 50
    ensures EncabezadosDesde(st, r, fBal, fSal) == EncabezadosDesde(EncabezadosFila(st, r, 1, fBal, fSal), r + 1, fBal, fSal)
  {
  }

  /** The outer loop: rows 1 to 49. */
  method ReemplazarMarcas(sheet: Sheet, fBal: string, fSal: string)
    modifies sheet
    ensures sheet.View() == EncabezadosDesde(old(sheet.View()), 1, fBal, fSal)
  {
    for r := 1 to 50
      invariant EncabezadosDesde(sheet.View(), r, fBal, fSal) == EncabezadosDesde(old(sheet.View()), 1, fBal, fSal)
    {
      ghost var antes := sheet.View();
      VisitarFila(sheet, r, fBal, fSal);
      DesdeUnfold(antes, r, fBal, fSal);
    }
  }

  /** `actualizar_fechas_encabezados(sheet, fecha_balance, fecha_saldos_iniciales)` */
  method ActualizarFechasEncabezados(sheet: Sheet, fb: Option<string>, fs: Option<string>)
    modifies sheet
    ensures sheet.View() == Encabezados(old(sheet.View()), fb, fs)
  {
    var fBal := FechaBalanceFormateada(fb);
    var fSal := FechaSaldosFormateada(fs, fb);
    ReemplazarMarcas(sheet, fBal, fSal);
  }
}
