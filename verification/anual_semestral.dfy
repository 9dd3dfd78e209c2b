/** The annual and semi-annual balance sheets: the dates and the accounts
    read from the balance keys, and the helpers that find the key rows of a
    sheet and write its total formulas
    (auditoria/processors/excel/processor_anual_semestral/data_extraction.py
    and utils.py). Keys look like "ANUAL-2023-12-31-Activo-Caja-C". */
module AnualSemestral {
  import opened Wrappers
  import opened Text
  import PyDict
  import Lex
  import FinancialData
  import opened Worksheet

  /** A balance dictionary: flattened keys to amounts. */
  type Balances = PyDict.Dict<string, real>

  // ------------------------------------------------------------- dates

  /** `k.split('-')[1] + '-' + k.split('-')[2] + '-' + k.split('-')[3]`:
      a key with fewer than four fields raises IndexError. */
  function DateOfKey(k: string): (r: Result<string, string>)
    ensures r.Err? <==> |Split(k, '-')| < 4
    ensures r.Ok? ==> Split(r.value, '-') == Split(k, '-')[1..4]
  {
    var p := Split(k, '-');
    if |p| < 4 then Err("IndexError")
    else
      SplitJoin([p[1], p[2], p[3]], '-');
      Join3(p[1], p[2], p[3], "-");
      assert p[1..4] == [p[1], p[2], p[3]];
      Ok(p[1] + "-" + p[2] + "-" + p[3])
  }

  /** The key of a balance carries its own date. */
  lemma DateOfBalanceKey(b: FinancialData.Balance, d: FinancialData.Date)
    requires b.fechaCorte == Some(FinancialData.IsoFormat(d))
    requires FinancialData.NoDash(b.tipoBalance) && FinancialData.NoDash(b.seccion)
    requires FinancialData.NoDash(b.nombreCuenta) && FinancialData.NoDash(b.tipoCuenta)
    ensures DateOfKey(FinancialData.BalanceKey(b)) == Ok(FinancialData.IsoFormat(d))
  {
    var key := FinancialData.BalanceKey(b);
    FinancialData.BalanceKeyFields(b, d);
    var p := Split(key, '-');
    var iso := FinancialData.IsoFormat(d);
    var f := Split(iso, '-');
    assert f == [p[1], p[2], p[3]];
    JoinSplit(iso, '-');
    Join3(p[1], p[2], p[3], "-");
    assert iso == p[1] + "-" + p[2] + "-" + p[3];
  }

  /** The keys of type `tipo`: those starting with `tipo + "-"`. */
  predicate OfType(k: string, tipo: string) {
    StartsWith(k, tipo + "-")
  }

  /** The dates of the keys of type `tipo`, in key order, or the error of
      the first such key without a date. */
  function DatesOf(keys: seq<string>, tipo: string): (r: Result<seq<string>, string>)
    ensures r.Ok? ==> |r.value| <= |keys|
  {
    if keys == [] then Ok([])
    else
      var rest := DatesOf(keys[1..], tipo);
      if !OfType(keys[0], tipo) then rest
      else
        match DateOfKey(keys[0])
        case Err(e) => Err(e)
        case Ok(f0) => if rest.Ok? then Ok([f0] + rest.value) else rest
  }

  /** The dates fail exactly when some key of the type has no date, and
      otherwise hold exactly the dates of the keys of the type. */
  lemma {:induction false} DatesOfEs(keys: seq<string>, tipo: string)
    ensures DatesOf(keys, tipo).Err? <==> exists k :: k in keys && OfType(k, tipo) && DateOfKey(k).Err?
    ensures DatesOf(keys, tipo).Ok? ==> forall f :: f in DatesOf(keys, tipo).value <==>
      exists k :: k in keys && OfType(k, tipo) && DateOfKey(k) == Ok(f)
  {
    if keys != [] {
      var rest := DatesOf(keys[1..], tipo);
      DatesOfEs(keys[1..], tipo);
      assert keys == [keys[0]] + keys[1..];
      assert forall k :: k in keys <==> k == keys[0] || k in keys[1..];
    }
  }

  /** `sorted(set(<date of k> for k in balances if k.startswith(tipo + '-')))`:
      the distinct dates of the keys of type `tipo`, in increasing order. */
  function Fechas(balances: Balances, tipo: string): (r: Result<seq<string>, string>)
    ensures r.Err? <==> exists k :: k in PyDict.Keys(balances) && OfType(k, tipo) && DateOfKey(k).Err?
    ensures r.Ok? ==> Lex.StrictlySorted(r.value)
    ensures r.Ok? ==> forall f :: f in r.value <==>
      exists k :: k in PyDict.Keys(balances) && OfType(k, tipo) && DateOfKey(k) == Ok(f)
  {
    var keys := PyDict.Keys(balances);
    DatesOfEs(keys, tipo);
    match DatesOf(keys, tipo)
    case Err(e) => Err(e)
    case Ok(fs) => Ok(Lex.SortedSet(fs))
  }

  // -------------------------------------------------- classification

  /** The sections a sheet has, in the order of the result dictionary. */
  const Sections: seq<string> := ["Activo", "Pasivo", "Patrimonio", "ESTADO DE RESULTADOS"]

  /** What a key contributes to the classification for type `tipo`: its
      section (field 4) and its account (the fields after the section joined
      back with '-'), when it has at least five fields and the type. */
  function Entry(k: string, tipo: string): (r: Option<(string, string)>)
    ensures r.Some? <==> |Split(k, '-')| >= 5 && Split(k, '-')[0] == tipo
    ensures r.Some? ==> r.value == (Split(k, '-')[4], Join(Split(k, '-')[5..], "-"))
  {
    var p := Split(k, '-');
    if |p| >= 5 && p[0] == tipo then Some((p[4], Join(p[5..], "-"))) else None
  }

  /** The state of the classification loop: the list per section and the
      set of accounts already placed. */
  datatype Accounts = Accounts(lists: map<string, seq<string>>, seen: set<string>)

  /** No element occurs twice. */
  predicate Distinct(xs: seq<string>) {
    forall i, j :: 0 <= i < j < |xs| ==> xs[i] != xs[j]
  }

  /** The loop's invariant: exactly the four sections; each list without
      duplicates; no account in two lists; `seen` is the union of the lists. */
  ghost predicate WellFormed(acc: Accounts) {
    (forall s :: s in acc.lists <==> s in Sections) &&
    (forall s :: s in acc.lists ==> Distinct(acc.lists[s])) &&
    (forall s, t, a :: s in acc.lists && t in acc.lists && a in acc.lists[s] && a in acc.lists[t] ==> s == t) &&
    (forall a :: a in acc.seen <==> exists s :: s in acc.lists && a in acc.lists[s])
  }

  /** The lists before sorting, after the keys `keys` in order. */
  function Classify(keys: seq<string>, tipo: string): (acc: Accounts)
    ensures WellFormed(acc)
  {
    if keys == [] then Accounts(map s | s in Sections :: [], {})
    else
      var acc := Classify(keys[..|keys| - 1], tipo);
      match Entry(keys[|keys| - 1], tipo)
      case None => acc
      case Some((s, a)) =>
        if s in acc.lists && a !in acc.seen then
          var acc' := Accounts(acc.lists[s := acc.lists[s] + [a]], acc.seen + {a});
          assert forall t, b :: t in acc'.lists && b in acc'.lists[t] ==> (t == s && b == a) || b in acc.lists[t];
          acc'
        else acc
  }

  /** `_clasificar_cuentas_por_seccion(balances, tipo_balance)`: each
      section's accounts, sorted. */
  method ClasificarCuentasPorSeccion(balances: Balances, tipo: string) returns (r: map<string, seq<string>>)
    ensures forall s :: s in r <==> s in Sections
    ensures forall s :: s in r ==> Lex.StrictlySorted(r[s])
    ensures forall s :: s in r ==> forall a :: a in r[s] <==> a in Classify(PyDict.Keys(balances), tipo).lists[s]
  {
    var keys := PyDict.Keys(balances);
    var lists: map<string, seq<string>> := map["Activo" := [], "Pasivo" := [], "Patrimonio" := [], "ESTADO DE RESULTADOS" := []];
    var seen: set<string> := {};
    assert lists == Classify([], tipo).lists;
    for i := 0 to |keys|
      invariant Accounts(lists, seen) == Classify(keys[..i], tipo)
    {
      assert keys[..i + 1][..i] == keys[..i];
      var partes := Split(keys[i], '-');
      if |partes| >= 5 && partes[0] == tipo {
        var seccion := partes[4];
        var cuenta := Join(partes[5..], "-");
        if seccion in lists && cuenta !in seen {
          lists := lists[seccion := lists[seccion] + [cuenta]];
          seen := seen + {cuenta};
        }
      }
    }
    assert keys[..|keys|] == keys;
    r := map s | s in lists :: Lex.SortedSet(lists[s]);
  }

  /** A key claims account `a` when it contributes `a` under a known section. */
  predicate Claims(k: string, tipo: string, a: string) {
    var e := Entry(k, tipo);
    e.Some? && e.value.1 == a && e.value.0 in Sections
  }

  /** Every classified account comes from a key of the type with at least
      five fields, under its own section (field 4, one of the four known
      sections), as the fields after the section joined with '-'. */
  lemma {:induction false} ClassifiedFromKey(keys: seq<string>, tipo: string, s: string, a: string)
    requires s in Classify(keys, tipo).lists && a in Classify(keys, tipo).lists[s]
    ensures s in Sections
    ensures exists i :: 0 <= i < |keys| && Entry(keys[i], tipo) == Some((s, a))
  {
    if keys != [] {
      var init := keys[..|keys| - 1];
      var acc := Classify(init, tipo);
      if s in acc.lists && a in acc.lists[s] {
        ClassifiedFromKey(init, tipo, s, a);
        var i :| 0 <= i < |init| && Entry(init[i], tipo) == Some((s, a));
        assert keys[i] == init[i];
      } else {
        assert Entry(keys[|keys| - 1], tipo) == Some((s, a));
      }
    }
  }

  /** An account is marked seen only by a key that claims it. */
  lemma SeenClaimed(keys: seq<string>, tipo: string, a: string)
    requires a in Classify(keys, tipo).seen
    ensures exists i :: 0 <= i < |keys| && Claims(keys[i], tipo, a)
  {
    var acc := Classify(keys, tipo);
    var s :| s in acc.lists && a in acc.lists[s];
    ClassifiedFromKey(keys, tipo, s, a);
  }

  /** A key's account is placed in the section of the first key that claims
      it, and in no other (the lists are disjoint): the first one seen wins. */
  lemma {:induction false} FirstClaimWins(keys: seq<string>, tipo: string, i: nat, s: string, a: string)
    requires i < |keys| && Entry(keys[i], tipo) == Some((s, a)) && s in Sections
    requires forall j :: 0 <= j < i ==> !Claims(keys[j], tipo, a)
    ensures a in Classify(keys, tipo).lists[s]
    ensures forall t :: t in Classify(keys, tipo).lists && t != s ==> a !in Classify(keys, tipo).lists[t]
  {
    var init := keys[..|keys| - 1];
    var acc := Classify(init, tipo);
    if i == |keys| - 1 {
      assert a !in acc.seen by {
        forall j | 0 <= j < |init| ensures !Claims(init[j], tipo, a) {
          assert init[j] == keys[j];
        }
        if a in acc.seen {
          SeenClaimed(init, tipo, a);
          assert false;
        }
      }
    } else {
      assert keys[i] == init[i];
      forall j | 0 <= j < i ensures !Claims(init[j], tipo, a) {
        assert init[j] == keys[j];
      }
      FirstClaimWins(init, tipo, i, s, a);
    }
  }

  /** The accounts of a balance: the key of a balance whose fields hold no
      '-' contributes its section and the account "nombre-tipo_cuenta". */
  lemma BalanceEntry(b: FinancialData.Balance, d: FinancialData.Date)
    requires b.fechaCorte == Some(FinancialData.IsoFormat(d))
    requires FinancialData.NoDash(b.tipoBalance) && FinancialData.NoDash(b.seccion)
    requires FinancialData.NoDash(b.nombreCuenta) && FinancialData.NoDash(b.tipoCuenta)
    ensures Entry(FinancialData.BalanceKey(b), b.tipoBalance) == Some((b.seccion, b.nombreCuenta + "-" + b.tipoCuenta))
  {
    FinancialData.BalanceKeyFields(b, d);
    var p := Split(FinancialData.BalanceKey(b), '-');
    assert p[5..] == [b.nombreCuenta, b.tipoCuenta];
    Join2(b.nombreCuenta, b.tipoCuenta, "-");
  }

  /** The key the inserter builds: f"{tipo}-{fecha}-{seccion}-{cuenta}". */
  function CellKey(tipo: string, fecha: string, seccion: string, cuenta: string): string {
    tipo + "-" + fecha + "-" + seccion + "-" + cuenta
  }

  /** Round trip: an account classified from a key with six or more fields,
      put back together with that key's date and section, is the key itself;
      so the inserter finds the amount of every classified account. */
  lemma CellKeyOfEntry(k: string, tipo: string)
    requires Entry(k, tipo).Some? && |Split(k, '-')| >= 6
    ensures DateOfKey(k).Ok?
    ensures CellKey(tipo, DateOfKey(k).value, Entry(k, tipo).value.0, Entry(k, tipo).value.1) == k
  {
    var p := Split(k, '-');
    JoinSplit(k, '-');
    JoinSix(p, "-");
    assert DateOfKey(k).value == p[1] + "-" + p[2] + "-" + p[3];
  }

  /** A list of six or more fields joined: the first five, then the rest. */
  lemma JoinSix(p: seq<string>, sep: string)
    requires |p| >= 6
    ensures Join(p, sep) == p[0] + sep + (p[1] + sep + p[2] + sep + p[3]) + sep + p[4] + sep + Join(p[5..], sep)
  {
    var j5 := Join(p[5..], sep);
    assert p[4..] == [p[4]] + p[5..];
    JoinPrepend(p[4], p[5..], sep);
    var j4 := p[4] + sep + j5;
    assert p[3..] == [p[3]] + p[4..];
    JoinPrepend(p[3], p[4..], sep);
    var j3 := p[3] + sep + j4;
    assert p[2..] == [p[2]] + p[3..];
    JoinPrepend(p[2], p[3..], sep);
    var j2 := p[2] + sep + j3;
    assert p[1..] == [p[1]] + p[2..];
    JoinPrepend(p[1], p[2..], sep);
    var j1 := p[1] + sep + j2;
    assert p == [p[0]] + p[1..];
    JoinPrepend(p[0], p[1..], sep);
    assert Join(p, sep) == p[0] + sep + j1;
  }

  /** `extraer_y_clasificar_datos`: the dates and the accounts of both types. */
  datatype Datos = Datos(fechasAnual: seq<string>, fechasSemestral: seq<string>,
                         cuentasAnual: map<string, seq<string>>, cuentasSemestral: map<string, seq<string>>)

  method ExtraerYClasificarDatos(balances: Balances) returns (r: Result<Datos, string>)
    ensures r.Err? <==> Fechas(balances, "ANUAL").Err? || Fechas(balances, "SEMESTRAL").Err?
    ensures r.Ok? ==> r.value.fechasAnual == Fechas(balances, "ANUAL").value
    ensures r.Ok? ==> r.value.fechasSemestral == Fechas(balances, "SEMESTRAL").value
    ensures r.Ok? ==> forall s :: s in r.value.cuentasAnual <==> s in Sections
    ensures r.Ok? ==> forall s :: s in r.value.cuentasSemestral <==> s in Sections
    ensures r.Ok? ==> forall s :: s in r.value.cuentasAnual ==>
              Lex.StrictlySorted(r.value.cuentasAnual[s]) &&
              forall a :: a in r.value.cuentasAnual[s] <==> a in Classify(PyDict.Keys(balances), "ANUAL").lists[s]
    ensures r.Ok? ==> forall s :: s in r.value.cuentasSemestral ==>
              Lex.StrictlySorted(r.value.cuentasSemestral[s]) &&
              forall a :: a in r.value.cuentasSemestral[s] <==> a in Classify(PyDict.Keys(balances), "SEMESTRAL").lists[s]
  {
    var fa := Fechas(balances, "ANUAL");
    if fa.Err? {
      return Err(fa.error);
    }
    var fs := Fechas(balances, "SEMESTRAL");
    if fs.Err? {
      return Err(fs.error);
    }
    var ca := ClasificarCuentasPorSeccion(balances, "ANUAL");
    var cs := ClasificarCuentasPorSeccion(balances, "SEMESTRAL");
    r := Ok(Datos(fa.value, fs.value, ca, cs));
  }

  // ------------------------------------------------------------- utils

  /** `formatear_fecha`: "YYYY-MM-DD" becomes "Al DD/MM/YYYY"; a text with
      fewer than three fields comes back unchanged. */
  function FormatearFecha(s: string): (r: string)
    ensures |Split(s, '-')| < 3 ==> r == s
    ensures |Split(s, '-')| >= 3 ==> StartsWith(r, "Al ")
  {
    var p := Split(s, '-');
    if |p| >= 3 then "Al " + p[2] + "/" + p[1] + "/" + p[0] else s
  }

  /** On an ISO date the fields come out day first. */
  lemma FormatearIsoFormat(d: FinancialData.Date)
    ensures FormatearFecha(FinancialData.IsoFormat(d)) ==
      "Al " + TwoDigits(d.day) + "/" + TwoDigits(d.month) + "/" + ZFill(NatToString(d.year), 4)
  {
  }

  /** `_columnas_valores`: the value columns, from column 3 (C) on; at most
      two for ANUAL, one per date for SEMESTRAL. */
  function ColumnasValores(tipo: string, n: nat): (cols: seq<int>)
    ensures |cols| == if tipo == "ANUAL" then (if n < 2 then n else 2) else n
    ensures forall i :: 0 <= i < |cols| ==> cols[i] == 3 + i
  {
    var m := if tipo == "ANUAL" then (if n < 2 then n else 2) else n;
    seq(m, i => 3 + i)
  }

  /** The labels of the key rows and their default rows. */
  const BalanceGeneral := "BALANCE GENERAL"
  const TotalActivo := "TOTAL ACTIVO"
  const TotalPasivoPatrimonio := "TOTAL PASIVO Y PATRIMONIO"

  /** `label in str(cell.value).upper()` for a truthy cell: a number's text
      holds no letters, so only a text cell can hold a label. */
  predicate HasLabel(v: Option<Value>, tag: string) {
    v.Some? && v.value.Str? && v.value.s != [] && Contains(Upper(v.value.s), tag)
  }

  /** Row `i` holds `tag` in column B or in column A. */
  predicate RowHasLabel(rows: Rows, i: int, tag: string) {
    HasLabel(CellOf(rows, i, 2), tag) || HasLabel(CellOf(rows, i, 1), tag)
  }

  /** The first row in 1..hi holding `tag`. */
  function FirstLabelRow(rows: Rows, tag: string, hi: int): (r: Option<int>)
    ensures r.Some? ==> 1 <= r.value <= hi && RowHasLabel(rows, r.value, tag) &&
                        forall j :: 1 <= j < r.value ==> !RowHasLabel(rows, j, tag)
    ensures r.None? ==> forall j :: 1 <= j <= hi ==> !RowHasLabel(rows, j, tag)
    decreases hi
  {
    if hi < 1 then None
    else
      match FirstLabelRow(rows, tag, hi - 1)
      case Some(r) => Some(r)
      case None => if RowHasLabel(rows, hi, tag) then Some(hi) else None
  }

  /** The rows `buscar_filas_clave` returns. */
  datatype KeyRows = KeyRows(balanceGeneral: int, totalActivo: int, totalPasivoPatrimonio: int)

  /** The first row holding each label, or its default (14, 22 and 26). */
  function KeyRowsOf(st: State): (k: KeyRows)
    ensures k.balanceGeneral >= 1 && k.totalActivo >= 1 && k.totalPasivoPatrimonio >= 1
  {
    var m := MaxRow(st);
    KeyRows(FirstLabelRow(st.rows, BalanceGeneral, m).GetOr(14),
            FirstLabelRow(st.rows, TotalActivo, m).GetOr(22),
            FirstLabelRow(st.rows, TotalPasivoPatrimonio, m).GetOr(26))
  }

  /** `buscar_filas_clave`: one pass over the rows, column B before column A;
      a label keeps the first row that holds it. */
  method BuscarFilasClave(sheet: Sheet) returns (k: KeyRows)
    ensures k == KeyRowsOf(sheet.View())
  {
    var bg: Option<int> := None;
    var ta: Option<int> := None;
    var tpp: Option<int> := None;
    var m := MaxRow(sheet.View());
    for i := 1 to m + 1
      invariant bg == FirstLabelRow(sheet.rows, BalanceGeneral, i - 1)
      invariant ta == FirstLabelRow(sheet.rows, TotalActivo, i - 1)
      invariant tpp == FirstLabelRow(sheet.rows, TotalPasivoPatrimonio, i - 1)
    {
      for col := 0 to 2
        invariant bg == if col == 0 || !RowHasLabel(sheet.rows, i, BalanceGeneral) then FirstLabelRow(sheet.rows, BalanceGeneral, i - 1)
                        else if col == 1 && !HasLabel(CellOf(sheet.rows, i, 2), BalanceGeneral) then FirstLabelRow(sheet.rows, BalanceGeneral, i - 1)
                        else FirstLabelRow(sheet.rows, BalanceGeneral, i)
        invariant ta == if col == 0 || !RowHasLabel(sheet.rows, i, TotalActivo) then FirstLabelRow(sheet.rows, TotalActivo, i - 1)
                        else if col == 1 && !HasLabel(CellOf(sheet.rows, i, 2), TotalActivo) then FirstLabelRow(sheet.rows, TotalActivo, i - 1)
                        else FirstLabelRow(sheet.rows, TotalActivo, i)
        invariant tpp == if col == 0 || !RowHasLabel(sheet.rows, i, TotalPasivoPatrimonio) then FirstLabelRow(sheet.rows, TotalPasivoPatrimonio, i - 1)
                        else if col == 1 && !HasLabel(CellOf(sheet.rows, i, 2), TotalPasivoPatrimonio) then FirstLabelRow(sheet.rows, TotalPasivoPatrimonio, i - 1)
                        else FirstLabelRow(sheet.rows, TotalPasivoPatrimonio, i)
      {
        var v := CellOf(sheet.rows, i, if col == 0 then 2 else 1);
        if bg.None? && HasLabel(v, BalanceGeneral) {
          bg := Some(i);
        }
        if ta.None? && HasLabel(v, TotalActivo) {
          ta := Some(i);
        }
        if tpp.None? && HasLabel(v, TotalPasivoPatrimonio) {
          tpp := Some(i);
        }
      }
    }
    k := KeyRows(bg.GetOr(14), ta.GetOr(22), tpp.GetOr(26));
  }

  /** Row `i` is an ordinary account row: column B holds a truthy value whose
      text lacks "TOTAL" (a non-zero number counts, its text has no letters). */
  predicate IsNormalRow(rows: Rows, i: int) {
    match CellOf(rows, i, 2)
    case Some(Str(s)) => s != [] && !Contains(Upper(s), "TOTAL")
    case Some(Num(x)) => x != 0.0
    case None => false
  }

  /** `encontrar_fila_cuenta_normal`: the first ordinary account row in
      [inicio, fin), or None. */
  method EncontrarFilaCuentaNormal(sheet: Sheet, inicio: int, fin: int) returns (r: Option<int>)
    ensures r.Some? ==> inicio <= r.value < fin && IsNormalRow(sheet.rows, r.value) &&
                        forall j :: inicio <= j < r.value ==> !IsNormalRow(sheet.rows, j)
    ensures r.None? ==> forall j :: inicio <= j < fin ==> !IsNormalRow(sheet.rows, j)
  {
    var i := inicio;
    while i < fin
      invariant inicio <= i || fin <= inicio
      invariant forall j :: inicio <= j < i ==> !IsNormalRow(sheet.rows, j)
    {
      if IsNormalRow(sheet.rows, i) {
        return Some(i);
      }
      i := i + 1;
    }
    return None;
  }

  /** The total formula of column `c`: "=SUM(C15:C21)". */
  function SumFormula(c: int, inicio: nat, fin: nat): string
    requires c >= 1
  {
    "=SUM(" + Coordinate(inicio, c) + ":" + Coordinate(fin, c) + ")"
  }

  /** The cells of row `fila` in `cols` after each got its column's formula. */
  function WriteFormulas(st: State, fila: int, cols: seq<int>, inicio: nat, fin: nat): (w: State)
    requires fila >= 1 && forall i :: 0 <= i < |cols| ==> cols[i] >= 1
    ensures forall c {:trigger CellOf(w.rows, fila, c)} :: c in cols ==> CellOf(w.rows, fila, c) == Some(Str(SumFormula(c, inicio, fin)))
    ensures forall r, c {:trigger CellOf(w.rows, r, c)} :: r != fila || c !in cols ==> CellOf(w.rows, r, c) == CellOf(st.rows, r, c)
    decreases |cols|
  {
    if cols == [] then st
    else WriteFormulas(Write(st, fila, cols[0], Str(SumFormula(cols[0], inicio, fin))), fila, cols[1..], inicio, fin)
  }

  /** `_actualizar_formula_suma` on a sheet state: nothing when the range is
      empty (fin < inicio). */
  function SumFormulas(st: State, fila: int, cols: seq<int>, inicio: int, fin: int): (w: State)
    requires fila >= 1 && inicio >= 1 && forall i :: 0 <= i < |cols| ==> cols[i] >= 1
    ensures fin < inicio ==> w == st
    ensures fin >= inicio ==> forall c {:trigger CellOf(w.rows, fila, c)} :: c in cols ==> CellOf(w.rows, fila, c) == Some(Str(SumFormula(c, inicio, fin)))
    ensures forall r, c {:trigger CellOf(w.rows, r, c)} :: r != fila || c !in cols ==> CellOf(w.rows, r, c) == CellOf(st.rows, r, c)
  {
    if fin < inicio then st else WriteFormulas(st, fila, cols, inicio, fin)
  }

  /** `_actualizar_formula_suma(sheet, fila_suma, columnas, fila_inicio, fila_fin)` */
  method ActualizarFormulaSuma(sheet: Sheet, fila: int, cols: seq<int>, inicio: int, fin: int)
    requires fila >= 1 && inicio >= 1 && forall i :: 0 <= i < |cols| ==> cols[i] >= 1
    modifies sheet
    ensures sheet.View() == SumFormulas(old(sheet.View()), fila, cols, inicio, fin)
  {
    if fin >= inicio {
      for i := 0 to |cols|
        invariant WriteFormulas(sheet.View(), fila, cols[i..], inicio, fin) == SumFormulas(old(sheet.View()), fila, cols, inicio, fin)
      {
        assert cols[i..][1..] == cols[i + 1..];
        sheet.Set(fila, cols[i], Str(SumFormula(cols[i], inicio, fin)));
      }
    }
  }
}
