/** The comparative sheet between the financial statements and the
    auxiliary records: from row 41, one row per account, with the account
    name in column 2, its balance in column 3 and its auxiliary amount in
    column 4, at most 30 rows (41 to 70). */
module Comparativo {
  import opened Wrappers
  import opened Text
  import opened PyDict
  import opened Worksheet
  import opened ComparativoFechas

  const FilaInicio := 41
  const MaxFilas := 70
  const ColCuenta := 2
  const ColBalance := 3
  const ColAuxiliar := 4

  /** The four categories, in the order they are written. */
  const Categorias: seq<string> := ["Activo", "Pasivo", "Patrimonio", "ESTADO DE RESULTADOS"]

  function Categoria(nombre: string): (k: Option<nat>)
    ensures k.Some? ==> k.value < 4 && Categorias[k.value] == nombre
    ensures k.None? ==> nombre !in Categorias
  {
    if nombre == "Activo" then Some(0)
    else if nombre == "Pasivo" then Some(1)
    else if nombre == "Patrimonio" then Some(2)
    else if nombre == "ESTADO DE RESULTADOS" then Some(3)
    else None
  }

  // -------------------------------------------------------- classification

  /** Where a balance key "…-…-…-…-CATEGORIA-CUENTA[-…]" goes: the category
      index and the account name, when the key contains the chosen date
      text, has six '-' fields at least and names one of the categories. */
  function Clasifica(clave: string, anio: string): (r: Option<(nat, string)>)
    ensures r.Some? ==> r.value.0 < 4
  {
    var p := Split(clave, '-');
    if Contains(clave, anio) && |p| >= 6 then
      match Categoria(p[4])
      case Some(k) => Some((k, p[5]))
      case None => None
    else None
  }

  /** The assignments `cuentas_por_categoria[categoria][cuenta] = valor`
      the loop makes to category `k`, in order. */
  function Pares(balances: Dict<string, real>, anio: string, k: nat): seq<(string, real)>
  {
    if balances == [] then []
    else
      var (clave, valor) := balances[|balances| - 1];
      var previos := Pares(balances[..|balances| - 1], anio, k);
      match Clasifica(clave, anio)
      case Some((k', cuenta)) => if k' == k then previos + [(cuenta, valor)] else previos
      case None => previos
  }

  /** `cuentas_por_categoria`, in the order of `Categorias`. */
  function Clasificacion(balances: Dict<string, real>, anio: string): (cats: seq<Dict<string, real>>)
    ensures |cats| == 4
  {
    seq(4, k requires 0 <= k < 4 => FromPairs(Pares(balances, anio, k)))
  }

  /** The classification loop. */
  method Clasificar(balances: Dict<string, real>, anio: string) returns (cats: seq<Dict<string, real>>)
    ensures cats == Clasificacion(balances, anio)
  {
    cats := [[], [], [], []];
    for i := 0 to |balances|
      invariant |cats| == 4
      invariant forall k :: 0 <= k < 4 ==> cats[k] == FromPairs(Pares(balances[..i], anio, k))
    {
      assert balances[..i + 1][..i] == balances[..i];
      var (clave, valor) := balances[i];
      match Clasifica(clave, anio)
      case Some((k, cuenta)) =>
        FromPairsSnoc(Pares(balances[..i], anio, k), cuenta, valor);
        cats := cats[k := Put(cats[k], cuenta, valor)];
      case None =>
    }
    assert balances[..|balances|] == balances;
  }

  /** Every category is a dictionary in which the last assignment to an
      account wins. */
  lemma ClasificacionValores(balances: Dict<string, real>, anio: string, k: nat, cuenta: string)
    requires k < 4
    ensures Valid(Clasificacion(balances, anio)[k])
    ensures Get(Clasificacion(balances, anio)[k], cuenta) == LastValue(Pares(balances, anio, k), cuenta)
  {
    GetFromPairs(Pares(balances, anio, k), cuenta);
  }

  /** A pair reaches category `k` exactly when its key classifies there. */
  lemma {:induction false} ParesDe(balances: Dict<string, real>, anio: string, k: nat, cuenta: string, valor: real)
    ensures (cuenta, valor) in Pares(balances, anio, k) <==>
      exists i :: 0 <= i < |balances| && balances[i].1 == valor && Clasifica(balances[i].0, anio) == Some((k, cuenta))
  {
    if balances != [] {
      var n := |balances| - 1;
      var ant := balances[..n];
      ParesDe(ant, anio, k, cuenta, valor);
      assert forall i :: 0 <= i < n ==> ant[i] == balances[i];
      if (exists i :: 0 <= i < |balances| && balances[i].1 == valor && Clasifica(balances[i].0, anio) == Some((k, cuenta))) {
        var i :| 0 <= i < |balances| && balances[i].1 == valor && Clasifica(balances[i].0, anio) == Some((k, cuenta));
        if i < n {
          assert ant[i] == balances[i];
        }
      }
    }
  }

  // ---------------------------------------------------------------- writing

  /** The three cells of a written row. */
  datatype Fila = Fila(cuenta: string, balance: real, auxiliar: real)

  /** The value a written row puts in column `c` (2, 3 or 4). */
  function ValorFila(f: Fila, c: int): Value {
    if c == ColCuenta then Str(f.cuenta)
    else if c == ColBalance then Num(f.balance)
    else Num(f.auxiliar)
  }

  /** The sheet after writing a row, when `fila` has not passed the last
      row; nothing is ever written below it. */
  function EscribirFila(st: State, fila: int, f: Fila): State
    requires fila >= 1
  {
    if fila <= MaxFilas then
      Write(Write(Write(st, fila, ColCuenta, Str(f.cuenta)), fila, ColBalance, Num(f.balance)), fila, ColAuxiliar, Num(f.auxiliar))
    else st
  }

  /** The sheet after writing `filas` one per row from row `desde`. */
  function EscribirFilas(st: State, filas: seq<Fila>, desde: int): State
    requires desde >= 1
  {
    if filas == [] then st
    else EscribirFila(EscribirFilas(st, filas[..|filas| - 1], desde), desde + |filas| - 1, filas[|filas| - 1])
  }

  /** The three loops over accounts: accounts also in the auxiliary records,
      accounts only in the balances, and accounts only in the auxiliary
      records. */
  datatype Bucle = Comunes | SoloBalance | SoloAuxiliar

  /** What the loops have done so far: the rows written, in order (so
      `fila_actual` is 41 plus their number), and `cuentas_procesadas`. */
  datatype Estado = Estado(filas: seq<Fila>, hechas: set<string>)

  /** The loop's condition on an account. */
  predicate Toma(b: Bucle, cuenta: string, aux: Dict<string, real>, hechas: set<string>) {
    match b
    case Comunes => HasKey(aux, cuenta) && cuenta !in hechas
    case SoloBalance => cuenta !in hechas
    case SoloAuxiliar => cuenta !in hechas
  }

  /** The row a loop writes for an account: a balance-only account gets 0
      as its auxiliary amount, an auxiliary-only account 0 as its balance. */
  function FilaDe(b: Bucle, cuenta: string, valor: real, aux: Dict<string, real>): Fila
    requires b.Comunes? ==> HasKey(aux, cuenta)
  {
    match b
    case Comunes => Fila(cuenta, valor, Get(aux, cuenta).value)
    case SoloBalance => Fila(cuenta, valor, 0.0)
    case SoloAuxiliar => Fila(cuenta, 0.0, valor)
  }

  /** One iteration: write the row and record the account (the third loop
      does not record it). */
  function Paso(e: Estado, par: (string, real), aux: Dict<string, real>, b: Bucle): Estado
  {
    var (cuenta, valor) := par;
    if Toma(b, cuenta, aux, e.hechas) then
      Estado(e.filas + [FilaDe(b, cuenta, valor, aux)], if b.SoloAuxiliar? then e.hechas else e.hechas + {cuenta})
    else e
  }

  /** A whole loop over `cuentas`. */
  function Recorrer(e: Estado, cuentas: Dict<string, real>, aux: Dict<string, real>, b: Bucle): Estado
  {
    if cuentas == [] then e
    else Paso(Recorrer(e, cuentas[..|cuentas| - 1], aux, b), cuentas[|cuentas| - 1], aux, b)
  }

  /** The first two loops for one category. */
  function Categoria2(e: Estado, cuentas: Dict<string, real>, aux: Dict<string, real>): Estado {
    Recorrer(Recorrer(e, cuentas, aux, Comunes), cuentas, aux, SoloBalance)
  }

  /** The loop over the categories. */
  function PorCategorias(e: Estado, cats: seq<Dict<string, real>>, aux: Dict<string, real>): Estado {
    if cats == [] then e
    else Categoria2(PorCategorias(e, cats[..|cats| - 1], aux), cats[|cats| - 1], aux)
  }

  /** The rows of all loops: the categories, then the auxiliary records. */
  function Filas(cats: seq<Dict<string, real>>, aux: Dict<string, real>): seq<Fila> {
    Recorrer(PorCategorias(Estado([], {}), cats, aux), aux, aux, SoloAuxiliar).filas
  }

  /** The sheet after `process_comparative_file`: unchanged when no balance
      key carries a date, else the loops' rows from row 41; the procedure
      stops once row 70 is written, and rows past it are never written. */
  function Proceso(st: State, balances: Dict<string, real>, aux: Dict<string, real>): State
  {
    match AnioMasReciente(Keys(balances))
    case None => st
    case Some(anio) => EscribirFilas(st, Filas(Clasificacion(balances, anio), aux), FilaInicio)
  }

  // ----------------------------------------------------------------- methods

  /** The three cell assignments of a row. */
  method EscribirFilaEn(sheet: Sheet, fila: int, f: Fila)
    requires 1 <= fila <= MaxFilas
    modifies sheet
    ensures sheet.View() == EscribirFila(old(sheet.View()), fila, f)
  {
    sheet.Set(fila, ColCuenta, Str(f.cuenta));
    sheet.Set(fila, ColBalance, Num(f.balance));
    sheet.Set(fila, ColAuxiliar, Num(f.auxiliar));
  }

  /** One iteration of a loop, on a sheet that is `base` with the rows
      `e.filas` written. */
  method PasoEn(sheet: Sheet, ghost base: State, ghost e: Estado, fila0: int, hechas0: set<string>,
                par: (string, real), aux: Dict<string, real>, b: Bucle)
    returns (fila: int, hechas: set<string>)
    requires fila0 == FilaInicio + |e.filas| <= MaxFilas && hechas0 == e.hechas
    requires sheet.View() == EscribirFilas(base, e.filas, FilaInicio)
    modifies sheet
    ensures var e' := Paso(e, par, aux, b);
      sheet.View() == EscribirFilas(base, e'.filas, FilaInicio) &&
      fila == FilaInicio + |e'.filas| && hechas == e'.hechas
  {
    fila, hechas := fila0, hechas0;
    var (cuenta, valor) := par;
    if Toma(b, cuenta, aux, hechas) {
      var f := FilaDe(b, cuenta, valor, aux);
      EscribirFilaEn(sheet, fila, f);
      EscribirFilasSnoc(base, e.filas, f, FilaInicio);
      if !b.SoloAuxiliar? {
        hechas := hechas + {cuenta};
      }
      fila := fila + 1;
    }
  }

  /** One of the three loops, on a sheet that is `base` with the rows
      `e0.filas` written. It stops (`parar`) as soon as the row counter
      passes row 70: the first two loops return from the whole procedure
      there and the third breaks, so nothing is written afterwards. */
  method RecorrerEn(sheet: Sheet, ghost base: State, ghost e0: Estado, fila0: int, hechas0: set<string>,
                    cuentas: Dict<string, real>, aux: Dict<string, real>, b: Bucle)
    returns (fila: int, hechas: set<string>, parar: bool)
    requires fila0 == FilaInicio + |e0.filas| <= MaxFilas && hechas0 == e0.hechas
    requires sheet.View() == EscribirFilas(base, e0.filas, FilaInicio)
    modifies sheet
    ensures var e := Recorrer(e0, cuentas, aux, b);
      sheet.View() == EscribirFilas(base, e.filas, FilaInicio) &&
      (parar <==> FilaInicio + |e.filas| > MaxFilas) &&
      (!parar ==> fila == FilaInicio + |e.filas| && hechas == e.hechas)
  {
    fila, hechas, parar := fila0, hechas0, false;
    ghost var e := e0;
    for i := 0 to |cuentas|
      invariant e == Recorrer(e0, cuentas[..i], aux, b)
      invariant fila == FilaInicio + |e.filas| <= MaxFilas && hechas == e.hechas
      invariant sheet.View() == EscribirFilas(base, e.filas, FilaInicio)
    {
      RecorrerSnoc(e0, cuentas, i, aux, b);
      fila, hechas := PasoEn(sheet, base, e, fila, hechas, cuentas[i], aux, b);
      e := Paso(e, cuentas[i], aux, b);
      if fila > MaxFilas {
        Detener(e0, cuentas, i + 1, aux, b, base);
        parar := true;
        return;
      }
    }
    assert cuentas[..|cuentas|] == cuentas;
  }

  /** Both loops of one category. */
  method CategoriaEn(sheet: Sheet, ghost base: State, ghost e0: Estado, fila0: int, hechas0: set<string>,
                     cuentas: Dict<string, real>, aux: Dict<string, real>)
    returns (fila: int, hechas: set<string>, parar: bool)
    requires fila0 == FilaInicio + |e0.filas| <= MaxFilas && hechas0 == e0.hechas
    requires sheet.View() == EscribirFilas(base, e0.filas, FilaInicio)
    modifies sheet
    ensures var e := Categoria2(e0, cuentas, aux);
      sheet.View() == EscribirFilas(base, e.filas, FilaInicio) &&
      (parar <==> FilaInicio + |e.filas| > MaxFilas) &&
      (!parar ==> fila == FilaInicio + |e.filas| && hechas == e.hechas)
  {
    fila, hechas, parar := RecorrerEn(sheet, base, e0, fila0, hechas0, cuentas, aux, Comunes);
    ghost var e1 := Recorrer(e0, cuentas, aux, Comunes);
    if parar {
      Mas(e1, cuentas, aux, SoloBalance, base);
      return;
    }
    fila, hechas, parar := RecorrerEn(sheet, base, e1, fila, hechas, cuentas, aux, SoloBalance);
  }

  /** The loop over the categories. */
  method PorCategoriasEn(sheet: Sheet, ghost base: State, cats: seq<Dict<string, real>>, aux: Dict<string, real>)
    returns (fila: int, hechas: set<string>, parar: bool)
    requires sheet.View() == base
    modifies sheet
    ensures var e := PorCategorias(Estado([], {}), cats, aux);
      sheet.View() == EscribirFilas(base, e.filas, FilaInicio) &&
      (parar <==> FilaInicio + |e.filas| > MaxFilas) &&
      (!parar ==> fila == FilaInicio + |e.filas| && hechas == e.hechas)
  {
    ghost var e0 := Estado([], {});
    fila, hechas, parar := FilaInicio, {}, false;
    for k := 0 to |cats|
      invariant var e := PorCategorias(e0, cats[..k], aux);
        fila == FilaInicio + |e.filas| <= MaxFilas && hechas == e.hechas &&
        sheet.View() == EscribirFilas(base, e.filas, FilaInicio)
    {
      assert cats[..k + 1][..k] == cats[..k];
      ghost var e := PorCategorias(e0, cats[..k], aux);
      fila, hechas, parar := CategoriaEn(sheet, base, e, fila, hechas, cats[k], aux);
      if parar {
        DetenerCategorias(e0, cats, k + 1, aux, base);
        return;
      }
    }
    assert cats[..|cats|] == cats;
  }

  /** The procedure after the workbook check: the date, the classification
      and the loops. */
  method ProcesarHoja(sheet: Sheet, balances: Dict<string, real>, aux: Dict<string, real>)
    modifies sheet
    ensures sheet.View() == Proceso(old(sheet.View()), balances, aux)
  {
    var anio := ObtenerAnioMasReciente(balances);
    if anio.None? {
      return;
    }
    var cats := Clasificar(balances, anio.value);
    ghost var base := sheet.View();
    var fila, hechas, parar := PorCategoriasEn(sheet, base, cats, aux);
    ghost var e := PorCategorias(Estado([], {}), cats, aux);
    if parar {
      Mas(e, aux, aux, SoloAuxiliar, base);
      return;
    }
    fila, hechas, parar := RecorrerEn(sheet, base, e, fila, hechas, aux, aux, SoloAuxiliar);
  }

  /** `process_comparative_file`: a workbook without worksheets is left
      alone; otherwise its first worksheet is filled. */
  method ProcesarComparativo(libro: seq<Sheet>, balances: Dict<string, real>, aux: Dict<string, real>)
    modifies if libro == [] then {} else {libro[0]}
    ensures libro != [] ==> libro[0].View() == Proceso(old(libro[0].View()), balances, aux)
  {
    if libro == [] {
      return;
    }
    ProcesarHoja(libro[0], balances, aux);
  }

  // ----------------------------------------------------- stopping at row 70

  lemma RecorrerSnoc(e: Estado, cuentas: Dict<string, real>, i: nat, aux: Dict<string, real>, b: Bucle)
    requires i < |cuentas|
    ensures Recorrer(e, cuentas[..i + 1], aux, b) == Paso(Recorrer(e, cuentas[..i], aux, b), cuentas[i], aux, b)
  {
    assert cuentas[..i + 1][..i] == cuentas[..i];
  }

  /** Writing one more row. */
  lemma EscribirFilasSnoc(st: State, filas: seq<Fila>, f: Fila, desde: int)
    requires desde >= 1
    ensures EscribirFilas(st, filas + [f], desde) == EscribirFila(EscribirFilas(st, filas, desde), desde + |filas|, f)
  {
    assert (filas + [f])[..|filas|] == filas;
  }

  /** Rows past row 70 change nothing. */
  lemma {:induction false} PasadoElFinal(st: State, a: seq<Fila>, b: seq<Fila>, desde: int)
    requires desde >= 1 && a <= b && desde + |a| > MaxFilas
    ensures EscribirFilas(st, b, desde) == EscribirFilas(st, a, desde)
  {
    if |b| > |a| {
      var n := |b| - 1;
      assert a <= b[..n];
      PasadoElFinal(st, a, b[..n], desde);
    } else {
      assert a == b;
    }
  }

  /** A loop only adds rows after the ones already written. */
  lemma {:induction false} RecorrerCrece(e: Estado, cuentas: Dict<string, real>, i: nat, aux: Dict<string, real>, b: Bucle)
    requires i <= |cuentas|
    ensures Recorrer(e, cuentas[..i], aux, b).filas <= Recorrer(e, cuentas, aux, b).filas
    decreases |cuentas|
  {
    if |cuentas| > i {
      var n := |cuentas| - 1;
      RecorrerCrece(e, cuentas[..n], i, aux, b);
      assert cuentas[..n][..i] == cuentas[..i];
    } else {
      assert cuentas[..i] == cuentas;
    }
  }

  /** A loop that has passed the last row after `i` accounts has written all
      it ever writes. */
  lemma Detener(e: Estado, cuentas: Dict<string, real>, i: nat, aux: Dict<string, real>, b: Bucle, base: State)
    requires i <= |cuentas|
    requires FilaInicio + |Recorrer(e, cuentas[..i], aux, b).filas| > MaxFilas
    ensures var antes := Recorrer(e, cuentas[..i], aux, b).filas;
      var todas := Recorrer(e, cuentas, aux, b).filas;
      EscribirFilas(base, todas, FilaInicio) == EscribirFilas(base, antes, FilaInicio) && |todas| >= |antes|
  {
    RecorrerCrece(e, cuentas, i, aux, b);
    PasadoElFinal(base, Recorrer(e, cuentas[..i], aux, b).filas, Recorrer(e, cuentas, aux, b).filas, FilaInicio);
  }

  /** A whole loop run after the last row has been passed writes nothing. */
  lemma Mas(e: Estado, cuentas: Dict<string, real>, aux: Dict<string, real>, b: Bucle, base: State)
    requires FilaInicio + |e.filas| > MaxFilas
    ensures var todas := Recorrer(e, cuentas, aux, b).filas;
      EscribirFilas(base, todas, FilaInicio) == EscribirFilas(base, e.filas, FilaInicio) && |todas| >= |e.filas|
  {
    RecorrerCrece(e, cuentas, 0, aux, b);
    assert cuentas[..0] == [];
    PasadoElFinal(base, e.filas, Recorrer(e, cuentas, aux, b).filas, FilaInicio);
  }

  /** The category loop only adds rows after the ones already written. */
  lemma {:induction false} PorCategoriasCrece(e: Estado, cats: seq<Dict<string, real>>, i: nat, aux: Dict<string, real>)
    requires i <= |cats|
    ensures PorCategorias(e, cats[..i], aux).filas <= PorCategorias(e, cats, aux).filas
    decreases |cats|
  {
    if |cats| > i {
      var n := |cats| - 1;
      var p := PorCategorias(e, cats[..n], aux);
      PorCategoriasCrece(e, cats[..n], i, aux);
      assert cats[..n][..i] == cats[..i];
      RecorrerCrece(p, cats[n], |cats[n]|, aux, Comunes);
      assert cats[n][..|cats[n]|] == cats[n];
      var q := Recorrer(p, cats[n], aux, Comunes);
      RecorrerCrece(q, cats[n], 0, aux, SoloBalance);
      assert cats[n][..0] == [];
      RecorrerCrece(p, cats[n], 0, aux, Comunes);
    } else {
      assert cats[..i] == cats;
    }
  }

  lemma DetenerCategorias(e: Estado, cats: seq<Dict<string, real>>, i: nat, aux: Dict<string, real>, base: State)
    requires i <= |cats|
    requires FilaInicio + |PorCategorias(e, cats[..i], aux).filas| > MaxFilas
    ensures var antes := PorCategorias(e, cats[..i], aux).filas;
      var todas := PorCategorias(e, cats, aux).filas;
      EscribirFilas(base, todas, FilaInicio) == EscribirFilas(base, antes, FilaInicio) && |todas| >= |antes|
  {
    PorCategoriasCrece(e, cats, i, aux);
    PasadoElFinal(base, PorCategorias(e, cats[..i], aux).filas, PorCategorias(e, cats, aux).filas, FilaInicio);
  }

  // ---------------------------------------------------------------- the plan

  /** The accounts of a dictionary. */
  function Nombres(d: Dict<string, real>): set<string> {
    if d == [] then {} else Nombres(d[..|d| - 1]) + {d[|d| - 1].0}
  }

  /** The accounts of a dictionary that are also in the auxiliary records. */
  function EnAux(d: Dict<string, real>, aux: Dict<string, real>): (r: set<string>)
    ensures r <= Nombres(d)
  {
    if d == [] then {}
    else EnAux(d[..|d| - 1], aux) + (if HasKey(aux, d[|d| - 1].0) then {d[|d| - 1].0} else {})
  }

  /** The accounts of a list of categories. */
  function NombresCats(cats: seq<Dict<string, real>>): set<string> {
    if cats == [] then {} else NombresCats(cats[..|cats| - 1]) + Nombres(cats[|cats| - 1])
  }

  /** The rows of a category's accounts that are also in the auxiliary
      records, leaving out `antes`. */
  function FiltroComun(cuentas: Dict<string, real>, aux: Dict<string, real>, antes: set<string>): seq<Fila> {
    if cuentas == [] then []
    else
      var (c, v) := cuentas[|cuentas| - 1];
      FiltroComun(cuentas[..|cuentas| - 1], aux, antes) +
        (if HasKey(aux, c) && c !in antes then [Fila(c, v, Get(aux, c).value)] else [])
  }

  /** The rows of a category's accounts absent from the auxiliary records,
      leaving out `antes`. */
  function FiltroBalance(cuentas: Dict<string, real>, aux: Dict<string, real>, antes: set<string>): seq<Fila> {
    if cuentas == [] then []
    else
      var (c, v) := cuentas[|cuentas| - 1];
      FiltroBalance(cuentas[..|cuentas| - 1], aux, antes) +
        (if !HasKey(aux, c) && c !in antes then [Fila(c, v, 0.0)] else [])
  }

  /** The rows of the auxiliary accounts outside `antes`. */
  function FiltroAux(aux: Dict<string, real>, antes: set<string>): seq<Fila> {
    if aux == [] then []
    else
      var (c, v) := aux[|aux| - 1];
      FiltroAux(aux[..|aux| - 1], antes) + (if c !in antes then [Fila(c, 0.0, v)] else [])
  }

  /** The rows of the categories: for each category in turn, its accounts
      also in the auxiliary records, then its balance-only accounts, each
      leaving out the accounts of earlier categories. */
  function PlanCategorias(cats: seq<Dict<string, real>>, aux: Dict<string, real>): seq<Fila> {
    if cats == [] then []
    else
      var previas := cats[..|cats| - 1];
      var cuentas := cats[|cats| - 1];
      PlanCategorias(previas, aux) + FiltroComun(cuentas, aux, NombresCats(previas)) +
        FiltroBalance(cuentas, aux, NombresCats(previas))
  }

  /** Every row the procedure would write without the 30-row limit: the
      categories' rows, then the rows of the auxiliary accounts no category
      holds. */
  function Plan(cats: seq<Dict<string, real>>, aux: Dict<string, real>): seq<Fila> {
    PlanCategorias(cats, aux) + FiltroAux(aux, NombresCats(cats))
  }

  lemma {:induction false} NombresEs(d: Dict<string, real>, c: string)
    ensures c in Nombres(d) <==> HasKey(d, c)
  {
    if d != [] {
      var n := |d| - 1;
      NombresEs(d[..n], c);
      if HasKey(d, c) {
        var i :| 0 <= i < |d| && d[i].0 == c;
        if i < n {
          assert d[..n][i].0 == c;
        }
      }
      if HasKey(d[..n], c) {
        var i :| 0 <= i < n && d[..n][i].0 == c;
        assert d[i].0 == c;
      }
    }
  }

  /** In a dictionary, the last account is none of the earlier ones. */
  lemma UltimoNuevo(cuentas: Dict<string, real>)
    requires cuentas != [] && Valid(cuentas)
    ensures Valid(cuentas[..|cuentas| - 1])
    ensures cuentas[|cuentas| - 1].0 !in Nombres(cuentas[..|cuentas| - 1])
  {
    var n := |cuentas| - 1;
    NombresEs(cuentas[..n], cuentas[n].0);
  }

  /** The loop over the accounts also in the auxiliary records adds their
      rows, and records exactly them. */
  lemma {:induction false} RecorrerComunes(filas: seq<Fila>, antes: set<string>, cuentas: Dict<string, real>,
                                           aux: Dict<string, real>)
    requires Valid(cuentas)
    ensures Recorrer(Estado(filas, antes), cuentas, aux, Comunes) ==
      Estado(filas + FiltroComun(cuentas, aux, antes), antes + EnAux(cuentas, aux))
  {
    if cuentas != [] {
      var n := |cuentas| - 1;
      var ant := cuentas[..n];
      var (c, v) := cuentas[n];
      RecorrerComunes(filas, antes, ant, aux);
      UltimoNuevo(cuentas);
      var previas := FiltroComun(ant, aux, antes);
      if HasKey(aux, c) && c !in antes {
        assert filas + previas + [Fila(c, v, Get(aux, c).value)] == filas + (previas + [Fila(c, v, Get(aux, c).value)]);
      } else {
        assert previas + [] == previas;
      }
    }
  }

  /** The loop over a category's balance-only accounts, started once the
      accounts `enAux` also in the auxiliary records are recorded. */
  lemma {:induction false} RecorrerBalance(filas: seq<Fila>, antes: set<string>, enAux: set<string>,
                                           cuentas: Dict<string, real>, aux: Dict<string, real>)
    requires Valid(cuentas)
    requires forall i :: 0 <= i < |cuentas| ==> (cuentas[i].0 in enAux <==> HasKey(aux, cuentas[i].0))
    ensures Recorrer(Estado(filas, antes + enAux), cuentas, aux, SoloBalance) ==
      Estado(filas + FiltroBalance(cuentas, aux, antes), antes + enAux + Nombres(cuentas))
  {
    if cuentas != [] {
      var n := |cuentas| - 1;
      var ant := cuentas[..n];
      var (c, v) := cuentas[n];
      forall i | 0 <= i < n ensures ant[i].0 in enAux <==> HasKey(aux, ant[i].0) {
        assert ant[i] == cuentas[i];
      }
      RecorrerBalance(filas, antes, enAux, ant, aux);
      UltimoNuevo(cuentas);
      var previas := FiltroBalance(ant, aux, antes);
      assert c in enAux <==> HasKey(aux, c);
      if !HasKey(aux, c) && c !in antes {
        assert filas + previas + [Fila(c, v, 0.0)] == filas + (previas + [Fila(c, v, 0.0)]);
      } else {
        assert previas + [] == previas;
      }
    }
  }

  /** Which accounts of a category are also in the auxiliary records. */
  lemma {:induction false} EnAuxEs(cuentas: Dict<string, real>, aux: Dict<string, real>)
    requires Valid(cuentas)
    ensures forall i :: 0 <= i < |cuentas| ==> (cuentas[i].0 in EnAux(cuentas, aux) <==> HasKey(aux, cuentas[i].0))
  {
    if cuentas != [] {
      var n := |cuentas| - 1;
      var ant := cuentas[..n];
      UltimoNuevo(cuentas);
      EnAuxEs(ant, aux);
      forall i | 0 <= i < |cuentas|
        ensures cuentas[i].0 in EnAux(cuentas, aux) <==> HasKey(aux, cuentas[i].0)
      {
        if i < n {
          assert ant[i] == cuentas[i];
          assert cuentas[i].0 != cuentas[n].0;
        }
      }
    }
  }

  /** Both loops of a category add its rows of the plan and record all its
      accounts. */
  lemma CategoriaFilas(filas: seq<Fila>, antes: set<string>, cuentas: Dict<string, real>, aux: Dict<string, real>)
    requires Valid(cuentas)
    ensures Categoria2(Estado(filas, antes), cuentas, aux) ==
      Estado(filas + (FiltroComun(cuentas, aux, antes) + FiltroBalance(cuentas, aux, antes)), antes + Nombres(cuentas))
  {
    var comunes := FiltroComun(cuentas, aux, antes);
    RecorrerComunes(filas, antes, cuentas, aux);
    EnAuxEs(cuentas, aux);
    RecorrerBalance(filas + comunes, antes, EnAux(cuentas, aux), cuentas, aux);
    assert antes + EnAux(cuentas, aux) + Nombres(cuentas) == antes + Nombres(cuentas);
    assert filas + comunes + FiltroBalance(cuentas, aux, antes) == filas + (comunes + FiltroBalance(cuentas, aux, antes));
  }

  /** The category loop adds the categories' rows of the plan. */
  lemma {:induction false} CategoriasFilas(cats: seq<Dict<string, real>>, aux: Dict<string, real>)
    requires forall k :: 0 <= k < |cats| ==> Valid(cats[k])
    ensures PorCategorias(Estado([], {}), cats, aux) == Estado(PlanCategorias(cats, aux), NombresCats(cats))
  {
    if cats != [] {
      var n := |cats| - 1;
      var previas := cats[..n];
      assert forall k :: 0 <= k < n ==> previas[k] == cats[k];
      CategoriasFilas(previas, aux);
      CategoriaFilas(PlanCategorias(previas, aux), NombresCats(previas), cats[n], aux);
      var nuevas := FiltroComun(cats[n], aux, NombresCats(previas)) + FiltroBalance(cats[n], aux, NombresCats(previas));
      assert PlanCategorias(cats, aux) == PlanCategorias(previas, aux) + nuevas;
    }
  }

  /** The loop over the auxiliary records adds the auxiliary-only rows. */
  lemma {:induction false} AuxiliarFilas(filas: seq<Fila>, antes: set<string>, aux: Dict<string, real>, cuentas: Dict<string, real>)
    ensures Recorrer(Estado(filas, antes), cuentas, aux, SoloAuxiliar) == Estado(filas + FiltroAux(cuentas, antes), antes)
  {
    if cuentas != [] {
      var n := |cuentas| - 1;
      var (c, v) := cuentas[n];
      AuxiliarFilas(filas, antes, aux, cuentas[..n]);
      var previas := FiltroAux(cuentas[..n], antes);
      if c !in antes {
        assert filas + previas + [Fila(c, 0.0, v)] == filas + (previas + [Fila(c, 0.0, v)]);
      } else {
        assert previas + [] == previas;
      }
    }
  }

  /** The loops produce exactly the plan. */
  lemma FilasPlan(cats: seq<Dict<string, real>>, aux: Dict<string, real>)
    requires forall k :: 0 <= k < |cats| ==> Valid(cats[k])
    ensures Filas(cats, aux) == Plan(cats, aux)
  {
    CategoriasFilas(cats, aux);
    AuxiliarFilas(PlanCategorias(cats, aux), NombresCats(cats), aux, aux);
  }

  // ------------------------------------------------------ what the plan holds

  /** The accounts of some rows. */
  function Cuentas(filas: seq<Fila>): set<string> {
    set i | 0 <= i < |filas| :: filas[i].cuenta
  }

  /** No account has two rows. */
  predicate Distintas(filas: seq<Fila>) {
    forall i, j :: 0 <= i < j < |filas| ==> filas[i].cuenta != filas[j].cuenta
  }

  /** The balance of an account: its amount in the first category holding
      it, or 0 when none does. */
  function Balance(cats: seq<Dict<string, real>>, cuenta: string): (r: real)
    ensures cuenta !in NombresCats(cats) ==> r == 0.0
  {
    if cats == [] then 0.0
    else
      var n := |cats| - 1;
      if cuenta in NombresCats(cats[..n]) then Balance(cats[..n], cuenta)
      else
        NombresEs(cats[n], cuenta);
        if HasKey(cats[n], cuenta) then Get(cats[n], cuenta).value else 0.0
  }

  /** A row holds the account's balance and its auxiliary amount (0 when
      the auxiliary records lack it). */
  predicate FilaCorrecta(cats: seq<Dict<string, real>>, aux: Dict<string, real>, f: Fila) {
    f.balance == Balance(cats, f.cuenta) &&
    f.auxiliar == (if HasKey(aux, f.cuenta) then Get(aux, f.cuenta).value else 0.0)
  }

  lemma CuentasConcat(a: seq<Fila>, b: seq<Fila>)
    ensures Cuentas(a + b) == Cuentas(a) + Cuentas(b)
  {
    forall c | c in Cuentas(a + b) ensures c in Cuentas(a) + Cuentas(b) {
      var i :| 0 <= i < |a + b| && (a + b)[i].cuenta == c;
      if i >= |a| {
        assert b[i - |a|].cuenta == c;
      }
    }
    forall c | c in Cuentas(a) + Cuentas(b) ensures c in Cuentas(a + b) {
      if c in Cuentas(b) {
        var i :| 0 <= i < |b| && b[i].cuenta == c;
        assert (a + b)[|a| + i].cuenta == c;
      } else {
        var i :| 0 <= i < |a| && a[i].cuenta == c;
        assert (a + b)[i].cuenta == c;
      }
    }
  }

  lemma DistintasConcat(a: seq<Fila>, b: seq<Fila>)
    requires Distintas(a) && Distintas(b) && Cuentas(a) !! Cuentas(b)
    ensures Distintas(a + b)
  {
    forall i, j | 0 <= i < j < |a + b| ensures (a + b)[i].cuenta != (a + b)[j].cuenta {
      if j < |a| {
      } else if i >= |a| {
        assert (a + b)[i] == b[i - |a|] && (a + b)[j] == b[j - |a|];
      } else {
        assert (a + b)[i].cuenta in Cuentas(a);
        assert (a + b)[j] == b[j - |a|];
        assert (a + b)[j].cuenta in Cuentas(b);
      }
    }
  }

  lemma CuentasUna(f: Fila)
    ensures Cuentas([f]) == {f.cuenta}
  {
    assert [f][0].cuenta == f.cuenta;
  }

  /** A key of a dictionary, against its last entry. */
  lemma UltimaClave(d: Dict<string, real>, k: string)
    requires d != [] && Valid(d)
    ensures var n := |d| - 1;
      (HasKey(d, k) <==> HasKey(d[..n], k) || k == d[n].0) &&
      (HasKey(d[..n], k) ==> Get(d, k) == Get(d[..n], k))
  {
    var n := |d| - 1;
    assert d == d[..n] + [d[n]];
    HasKeyAppend(d[..n], [d[n]], k);
    GetAppend(d[..n], [d[n]], k);
    assert HasKey([d[n]], k) <==> k == d[n].0 by {
      assert [d[n]][0] == d[n];
    }
  }

  /** What the last entry of a dictionary adds. */
  lemma UltimaEntrada(d: Dict<string, real>)
    requires d != [] && Valid(d)
    ensures var n := |d| - 1;
      Valid(d[..n]) && !HasKey(d[..n], d[n].0) && Get(d, d[n].0) == Some(d[n].1) &&
      (forall k :: HasKey(d, k) <==> HasKey(d[..n], k) || k == d[n].0) &&
      (forall k :: HasKey(d[..n], k) ==> Get(d, k) == Get(d[..n], k))
  {
    var n := |d| - 1;
    GetValid(d, n);
    forall k ensures (HasKey(d, k) <==> HasKey(d[..n], k) || k == d[n].0) &&
                     (HasKey(d[..n], k) ==> Get(d, k) == Get(d[..n], k)) {
      UltimaClave(d, k);
    }
  }

  /** The rows of a category's accounts also in the auxiliary records. */
  lemma {:induction false} FiltroComunEs(cuentas: Dict<string, real>, aux: Dict<string, real>, antes: set<string>)
    requires Valid(cuentas)
    ensures var fs := FiltroComun(cuentas, aux, antes);
      Distintas(fs) &&
      (forall c :: c in Cuentas(fs) <==> HasKey(cuentas, c) && HasKey(aux, c) && c !in antes) &&
      (forall i :: 0 <= i < |fs| ==>
         Get(cuentas, fs[i].cuenta) == Some(fs[i].balance) && Get(aux, fs[i].cuenta) == Some(fs[i].auxiliar))
  {
    if cuentas != [] {
      var n := |cuentas| - 1;
      var (c, v) := cuentas[n];
      UltimaEntrada(cuentas);
      FiltroComunEs(cuentas[..n], aux, antes);
      var previas := FiltroComun(cuentas[..n], aux, antes);
      if HasKey(aux, c) && c !in antes {
        var nueva := [Fila(c, v, Get(aux, c).value)];
        CuentasConcat(previas, nueva);
        CuentasUna(nueva[0]);
        DistintasConcat(previas, nueva);
      } else {
        assert previas + [] == previas;
      }
    }
  }

  /** The rows of a category's accounts absent from the auxiliary records. */
  lemma {:induction false} FiltroBalanceEs(cuentas: Dict<string, real>, aux: Dict<string, real>, antes: set<string>)
    requires Valid(cuentas)
    ensures var fs := FiltroBalance(cuentas, aux, antes);
      Distintas(fs) &&
      (forall c :: c in Cuentas(fs) <==> HasKey(cuentas, c) && !HasKey(aux, c) && c !in antes) &&
      (forall i :: 0 <= i < |fs| ==> Get(cuentas, fs[i].cuenta) == Some(fs[i].balance) && fs[i].auxiliar == 0.0)
  {
    if cuentas != [] {
      var n := |cuentas| - 1;
      var (c, v) := cuentas[n];
      UltimaEntrada(cuentas);
      FiltroBalanceEs(cuentas[..n], aux, antes);
      var previas := FiltroBalance(cuentas[..n], aux, antes);
      if !HasKey(aux, c) && c !in antes {
        var nueva := [Fila(c, v, 0.0)];
        CuentasConcat(previas, nueva);
        CuentasUna(nueva[0]);
        DistintasConcat(previas, nueva);
      } else {
        assert previas + [] == previas;
      }
    }
  }

  /** The rows of the auxiliary accounts no category holds. */
  lemma {:induction false} FiltroAuxEs(aux: Dict<string, real>, antes: set<string>)
    requires Valid(aux)
    ensures var fs := FiltroAux(aux, antes);
      Distintas(fs) &&
      (forall c :: c in Cuentas(fs) <==> HasKey(aux, c) && c !in antes) &&
      (forall i :: 0 <= i < |fs| ==> Get(aux, fs[i].cuenta) == Some(fs[i].auxiliar) && fs[i].balance == 0.0)
  {
    if aux != [] {
      var n := |aux| - 1;
      var (c, v) := aux[n];
      UltimaEntrada(aux);
      FiltroAuxEs(aux[..n], antes);
      var previas := FiltroAux(aux[..n], antes);
      if c !in antes {
        var nueva := [Fila(c, 0.0, v)];
        CuentasConcat(previas, nueva);
        CuentasUna(nueva[0]);
        DistintasConcat(previas, nueva);
      } else {
        assert previas + [] == previas;
      }
    }
  }

  lemma {:induction false} NombresCatsEs(cats: seq<Dict<string, real>>, c: string)
    ensures c in NombresCats(cats) <==> exists k :: 0 <= k < |cats| && HasKey(cats[k], c)
  {
    if cats != [] {
      var n := |cats| - 1;
      NombresCatsEs(cats[..n], c);
      NombresEs(cats[n], c);
      if exists k :: 0 <= k < |cats| && HasKey(cats[k], c) {
        var k :| 0 <= k < |cats| && HasKey(cats[k], c);
        if k < n {
          assert cats[..n][k] == cats[k];
        }
      }
      if exists k :: 0 <= k < n && HasKey(cats[..n][k], c) {
        var k :| 0 <= k < n && HasKey(cats[..n][k], c);
        assert cats[k] == cats[..n][k];
      }
    }
  }

  /** One category's rows: new accounts only, each once, with the
      category's balance. */
  lemma CategoriaPlanEs(cats: seq<Dict<string, real>>, aux: Dict<string, real>)
    requires cats != [] && Valid(cats[|cats| - 1])
    ensures var n := |cats| - 1;
      var antes := NombresCats(cats[..n]);
      var fs := FiltroComun(cats[n], aux, antes) + FiltroBalance(cats[n], aux, antes);
      Distintas(fs) &&
      (forall c :: c in Cuentas(fs) <==> c in NombresCats(cats) && c !in antes) &&
      (forall i :: 0 <= i < |fs| ==> FilaCorrecta(cats, aux, fs[i]))
  {
    var n := |cats| - 1;
    var antes := NombresCats(cats[..n]);
    var comunes := FiltroComun(cats[n], aux, antes);
    var balance := FiltroBalance(cats[n], aux, antes);
    FiltroComunEs(cats[n], aux, antes);
    FiltroBalanceEs(cats[n], aux, antes);
    CuentasConcat(comunes, balance);
    DistintasConcat(comunes, balance);
    forall c ensures c in Cuentas(comunes + balance) <==> c in NombresCats(cats) && c !in antes {
      NombresEs(cats[n], c);
    }
    forall i | 0 <= i < |comunes + balance| ensures FilaCorrecta(cats, aux, (comunes + balance)[i]) {
      var f := (comunes + balance)[i];
      if i < |comunes| {
        assert f == comunes[i];
        assert f.cuenta in Cuentas(comunes);
      } else {
        assert f == balance[i - |comunes|];
        assert f.cuenta in Cuentas(balance);
      }
    }
  }

  /** The categories' rows: each account of a category exactly once, with
      its balance and auxiliary amount. */
  lemma {:induction false} PlanCategoriasEs(cats: seq<Dict<string, real>>, aux: Dict<string, real>)
    requires forall k :: 0 <= k < |cats| ==> Valid(cats[k])
    ensures var fs := PlanCategorias(cats, aux);
      Distintas(fs) && Cuentas(fs) == NombresCats(cats) &&
      (forall i :: 0 <= i < |fs| ==> FilaCorrecta(cats, aux, fs[i]))
  {
    if cats != [] {
      var n := |cats| - 1;
      var previas := cats[..n];
      assert forall k :: 0 <= k < n ==> previas[k] == cats[k];
      PlanCategoriasEs(previas, aux);
      CategoriaPlanEs(cats, aux);
      var antes := PlanCategorias(previas, aux);
      var nuevas := FiltroComun(cats[n], aux, NombresCats(previas)) + FiltroBalance(cats[n], aux, NombresCats(previas));
      assert PlanCategorias(cats, aux) == antes + nuevas;
      CuentasConcat(antes, nuevas);
      DistintasConcat(antes, nuevas);
      forall i | 0 <= i < |antes + nuevas| ensures FilaCorrecta(cats, aux, (antes + nuevas)[i]) {
        if i < |antes| {
          assert (antes + nuevas)[i] == antes[i];
          assert antes[i].cuenta in Cuentas(antes);
        } else {
          assert (antes + nuevas)[i] == nuevas[i - |antes|];
        }
      }
    }
  }

  /** Every account of the classification and of the auxiliary records has
      exactly one row, holding its balance (from the first category that
      holds it, else 0) and its auxiliary amount (else 0). */
  lemma PlanEs(cats: seq<Dict<string, real>>, aux: Dict<string, real>)
    requires forall k :: 0 <= k < |cats| ==> Valid(cats[k])
    requires Valid(aux)
    ensures var fs := Plan(cats, aux);
      Distintas(fs) &&
      (forall c :: c in Cuentas(fs) <==> (exists k :: 0 <= k < |cats| && HasKey(cats[k], c)) || HasKey(aux, c)) &&
      (forall i :: 0 <= i < |fs| ==> FilaCorrecta(cats, aux, fs[i]))
  {
    var antes := PlanCategorias(cats, aux);
    var resto := FiltroAux(aux, NombresCats(cats));
    PlanCategoriasEs(cats, aux);
    FiltroAuxEs(aux, NombresCats(cats));
    CuentasConcat(antes, resto);
    DistintasConcat(antes, resto);
    forall c ensures c in Cuentas(antes + resto) <==> (exists k :: 0 <= k < |cats| && HasKey(cats[k], c)) || HasKey(aux, c) {
      NombresCatsEs(cats, c);
    }
    forall i | 0 <= i < |antes + resto| ensures FilaCorrecta(cats, aux, (antes + resto)[i]) {
      if i < |antes| {
        assert (antes + resto)[i] == antes[i];
      } else {
        assert (antes + resto)[i] == resto[i - |antes|];
        assert resto[i - |antes|].cuenta in Cuentas(resto);
      }
    }
  }

  // ------------------------------------------------------------ the cells

  /** A cell after writing rows from `desde`: columns 2 to 4 of the rows
      written, up to row 70, hold the row's values; every other cell is
      unchanged. */
  lemma {:induction false} CeldaEscrita(st: State, filas: seq<Fila>, desde: int, r: int, c: int)
    requires desde >= 1
    ensures CellOf(EscribirFilas(st, filas, desde).rows, r, c) ==
      if ColCuenta <= c <= ColAuxiliar && desde <= r < desde + |filas| && r <= MaxFilas
      then Some(ValorFila(filas[r - desde], c))
      else CellOf(st.rows, r, c)
  {
    if filas != [] {
      var n := |filas| - 1;
      CeldaEscrita(st, filas[..n], desde, r, c);
    }
  }

  /** The sheet after `process_comparative_file`, cell by cell: with a
      dated balance key, rows 41 to 70 of columns B to D hold the plan's
      rows in order, and nothing else changes. */
  lemma ProcesoCelda(st: State, balances: Dict<string, real>, aux: Dict<string, real>, r: int, c: int)
    ensures AnioMasReciente(Keys(balances)).None? ==> Proceso(st, balances, aux) == st
    ensures match AnioMasReciente(Keys(balances))
      case None => true
      case Some(anio) =>
        var plan := Plan(Clasificacion(balances, anio), aux);
        CellOf(Proceso(st, balances, aux).rows, r, c) ==
          if ColCuenta <= c <= ColAuxiliar && FilaInicio <= r < FilaInicio + |plan| && r <= MaxFilas
          then Some(ValorFila(plan[r - FilaInicio], c))
          else CellOf(st.rows, r, c)
  {
    match AnioMasReciente(Keys(balances))
    case None =>
    case Some(anio) =>
      var cats := Clasificacion(balances, anio);
      forall k | 0 <= k < |cats| ensures Valid(cats[k]) {
        ClasificacionValores(balances, anio, k, "");
      }
      FilasPlan(cats, aux);
      CeldaEscrita(st, Plan(cats, aux), FilaInicio, r, c);
  }
}
