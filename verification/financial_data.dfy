/** The audit's financial records as the Excel processors receive them:
    serialised rows, and the four dictionaries keyed by flattened strings
    such as "ANUAL-2023-12-31-Activo-Caja-C" (auditoria/utils/data_db.py). */
module FinancialData {
  import opened Wrappers
  import opened Text
  import PyDict

  /** A calendar date; `isoformat` renders it as "YYYY-MM-DD". */
  datatype Date = Date(year: nat, month: nat, day: nat)

  /** `date.isoformat()` */
  function IsoFormat(d: Date): (s: string)
    ensures Split(s, '-') == [ZFill(NatToString(d.year), 4), TwoDigits(d.month), TwoDigits(d.day)]
  {
    var y, m, dd := ZFill(NatToString(d.year), 4), TwoDigits(d.month), TwoDigits(d.day);
    DigitsExclude(y, '-');
    DigitsExclude(m, '-');
    DigitsExclude(dd, '-');
    SplitJoin([y, m, dd], '-');
    Join3(y, m, dd, "-");
    y + "-" + m + "-" + dd
  }

  /** f"{value}" of an optional ISO date: Python renders a missing one as "None". */
  function FormatOptional(s: Option<string>): string {
    match s
    case Some(v) => v
    case None => "None"
  }

  // ---------------------------------------------------------- ORM rows

  datatype BalanceRow = BalanceRow(
    id: nat, tipoBalance: string, fechaCorte: Option<Date>, seccion: string,
    nombreCuenta: string, tipoCuenta: Option<string>, valor: Option<real>, auditId: nat)

  datatype RegistroRow = RegistroRow(id: nat, cuenta: string, saldo: Option<real>, auditId: nat)

  datatype SaldoRow = SaldoRow(id: nat, cuenta: string, saldo: Option<real>, fechaCorte: Option<Date>, auditId: nat)

  datatype AjusteRow = AjusteRow(nombreCuenta: string, debe: real, haber: real)

  // ---------------------------------------------------- serialised rows

  datatype Balance = Balance(
    id: nat, tipoBalance: string, fechaCorte: Option<string>, seccion: string,
    nombreCuenta: string, tipoCuenta: string, valor: real, auditId: nat)

  datatype Registro = Registro(id: nat, cuenta: string, saldo: real, auditId: nat)

  datatype Saldo = Saldo(id: nat, cuenta: string, saldo: real, fechaCorte: Option<string>, auditId: nat)

  datatype DebeHaber = DebeHaber(debe: real, haber: real)

  datatype Ajuste = Ajuste(cuenta: string, debe: real, haber: real)

  /** A falsy amount (missing or zero) serialises as 0. */
  function Amount(v: Option<real>): (r: real)
    ensures r == v.GetOr(0.0)
    ensures r != 0.0 ==> v == Some(r)
  {
    if v.Some? && v.value != 0.0 then v.value else 0.0
  }

  function IsoOptional(d: Option<Date>): (r: Option<string>)
    ensures r.Some? <==> d.Some?
    ensures d.Some? ==> Split(r.value, '-') == [ZFill(NatToString(d.value.year), 4), TwoDigits(d.value.month), TwoDigits(d.value.day)]
  {
    match d
    case Some(v) => Some(IsoFormat(v))
    case None => None
  }

  /** `_serialize_balance` */
  function SerializeBalance(b: BalanceRow): (r: Balance)
    ensures r.tipoCuenta != []
    ensures b.tipoCuenta.Some? && b.tipoCuenta.value != [] ==> r.tipoCuenta == b.tipoCuenta.value
    ensures b.tipoCuenta.None? || b.tipoCuenta == Some([]) ==> r.tipoCuenta == "NT"
    ensures r.valor == b.valor.GetOr(0.0)
    ensures r.fechaCorte.Some? <==> b.fechaCorte.Some?
    ensures (r.id, r.tipoBalance, r.seccion, r.nombreCuenta, r.auditId) == (b.id, b.tipoBalance, b.seccion, b.nombreCuenta, b.auditId)
  {
    Balance(b.id, b.tipoBalance, IsoOptional(b.fechaCorte), b.seccion, b.nombreCuenta,
            if b.tipoCuenta.Some? && b.tipoCuenta.value != [] then b.tipoCuenta.value else "NT",
            Amount(b.valor), b.auditId)
  }

  /** `_serialize_registro_auxiliar` */
  function SerializeRegistro(g: RegistroRow): (r: Registro)
    ensures r == Registro(g.id, g.cuenta, g.saldo.GetOr(0.0), g.auditId)
  {
    Registro(g.id, g.cuenta, Amount(g.saldo), g.auditId)
  }

  /** `_serialize_saldo_inicial` */
  function SerializeSaldo(s: SaldoRow): (r: Saldo)
    ensures r.saldo == s.saldo.GetOr(0.0)
    ensures r.fechaCorte.Some? <==> s.fechaCorte.Some?
    ensures (r.id, r.cuenta, r.auditId) == (s.id, s.cuenta, s.auditId)
  {
    Saldo(s.id, s.cuenta, Amount(s.saldo), IsoOptional(s.fechaCorte), s.auditId)
  }

  // ------------------------------------------------------------ the keys

  /** f"{tipo_balance}-{fecha_corte}-{seccion}-{nombre_cuenta}-{tipo_cuenta}" */
  function BalanceKey(b: Balance): string {
    Join([b.tipoBalance, FormatOptional(b.fechaCorte), b.seccion, b.nombreCuenta, b.tipoCuenta], "-")
  }

  /** f"{cuenta}-{fecha_corte}" */
  function SaldoKey(s: Saldo): string {
    Join([s.cuenta, FormatOptional(s.fechaCorte)], "-")
  }

  predicate NoDash(s: string) { '-' !in s }

  /** The balance key splits back into its seven fields (type, year, month,
      day, section, account, account type) when none of the text fields
      holds a '-': this is the shape every Excel processor parses. */
  lemma BalanceKeyFields(b: Balance, d: Date)
    requires b.fechaCorte == Some(IsoFormat(d))
    requires NoDash(b.tipoBalance) && NoDash(b.seccion) && NoDash(b.nombreCuenta) && NoDash(b.tipoCuenta)
    ensures Split(BalanceKey(b), '-') ==
      [b.tipoBalance, ZFill(NatToString(d.year), 4), TwoDigits(d.month), TwoDigits(d.day),
       b.seccion, b.nombreCuenta, b.tipoCuenta]
  {
    var iso := IsoFormat(d);
    var y, m, dd := ZFill(NatToString(d.year), 4), TwoDigits(d.month), TwoDigits(d.day);
    var rest := [b.seccion, b.nombreCuenta, b.tipoCuenta];
    var fields := [b.tipoBalance, y, m, dd, b.seccion, b.nombreCuenta, b.tipoCuenta];
    JoinSplit(iso, '-');
    assert Join([y, m, dd], "-") == iso;
    Fields7(b.tipoBalance, y, m, dd, b.seccion, b.nombreCuenta, b.tipoCuenta);
    JoinConcat([y, m, dd], rest, "-");
    JoinPrepend(b.tipoBalance, [y, m, dd] + rest, "-");
    Fields5(b.tipoBalance, iso, b.seccion, b.nombreCuenta, b.tipoCuenta);
    JoinPrepend(iso, rest, "-");
    JoinPrepend(b.tipoBalance, [iso] + rest, "-");
    assert Join(fields, "-") == BalanceKey(b);
    DigitsExclude(y, '-');
    DigitsExclude(m, '-');
    DigitsExclude(dd, '-');
    NoSeparator7(b.tipoBalance, y, m, dd, b.seccion, b.nombreCuenta, b.tipoCuenta, '-');
    SplitJoin(fields, '-');
  }

  lemma Fields7(a: string, b: string, c: string, d: string, e: string, f: string, g: string)
    ensures [a, b, c, d, e, f, g] == [a] + ([b, c, d] + [e, f, g])
  {
  }

  lemma NoSeparator7(a: string, b: string, c: string, d: string, e: string, f: string, g: string, sep: char)
    requires sep !in a && sep !in b && sep !in c && sep !in d && sep !in e && sep !in f && sep !in g
    ensures forall i :: 0 <= i < 7 ==> sep !in [a, b, c, d, e, f, g][i]
  {
  }

  lemma Fields5(a: string, b: string, c: string, d: string, e: string)
    ensures [a, b, c, d, e] == [a] + ([b] + [c, d, e])
  {
  }

  /** The initial-balance key splits at its first '-' into the account and
      the date when the account holds no '-'. */
  lemma SaldoKeyFields(s: Saldo)
    requires NoDash(s.cuenta)
    ensures '-' in SaldoKey(s)
    ensures var k := SaldoKey(s); var i := FirstIndex(k, '-');
      k[..i] == s.cuenta && k[i + 1..] == FormatOptional(s.fechaCorte)
  {
    var k := SaldoKey(s);
    Join2(s.cuenta, FormatOptional(s.fechaCorte), "-");
    assert k[|s.cuenta|] == '-';
    assert k[..|s.cuenta|] == s.cuenta;
  }

  // ------------------------------------------------- organize_financial_data

  datatype FinancialInput = FinancialInput(
    balances: seq<Balance>, registrosAuxiliares: seq<Registro>,
    saldosIniciales: seq<Saldo>, ajustes: Option<seq<Ajuste>>)

  /** The organised data: exactly the four sections, each a dictionary. */
  datatype Organized = Organized(
    balances: PyDict.Dict<string, real>,
    registrosAuxiliares: PyDict.Dict<string, real>,
    saldosIniciales: PyDict.Dict<string, real>,
    ajustes: PyDict.Dict<string, DebeHaber>)

  function BalancePairs(bs: seq<Balance>): (p: seq<(string, real)>)
    ensures |p| == |bs| && forall i :: 0 <= i < |bs| ==> p[i] == (BalanceKey(bs[i]), bs[i].valor)
  {
    seq(|bs|, i requires 0 <= i < |bs| => (BalanceKey(bs[i]), bs[i].valor))
  }

  function RegistroPairs(rs: seq<Registro>): (p: seq<(string, real)>)
    ensures |p| == |rs| && forall i :: 0 <= i < |rs| ==> p[i] == (rs[i].cuenta, rs[i].saldo)
  {
    seq(|rs|, i requires 0 <= i < |rs| => (rs[i].cuenta, rs[i].saldo))
  }

  function SaldoPairs(ss: seq<Saldo>): (p: seq<(string, real)>)
    ensures |p| == |ss| && forall i :: 0 <= i < |ss| ==> p[i] == (SaldoKey(ss[i]), ss[i].saldo)
  {
    seq(|ss|, i requires 0 <= i < |ss| => (SaldoKey(ss[i]), ss[i].saldo))
  }

  function AjustePairs(aj: seq<Ajuste>): (p: seq<(string, DebeHaber)>)
    ensures |p| == |aj| && forall i :: 0 <= i < |aj| ==> p[i] == (aj[i].cuenta, DebeHaber(aj[i].debe, aj[i].haber))
  {
    seq(|aj|, i requires 0 <= i < |aj| => (aj[i].cuenta, DebeHaber(aj[i].debe, aj[i].haber)))
  }

  /** The adjustments as `get_all_financial_data` serialises them, row by row:
      `_serialize_ajuste` copies the account, the debit and the credit. */
  function SerializeAjustes(rows: seq<AjusteRow>): (r: seq<Ajuste>)
    ensures |r| == |rows|
  {
    if rows == [] then [] else SerializeAjustes(rows[..|rows| - 1]) + [Ajuste(rows[|rows| - 1].nombreCuenta, rows[|rows| - 1].debe, rows[|rows| - 1].haber)]
  }

  /** The last adjustment row of account `cuenta`, if any. */
  function UltimoAjuste(rows: seq<AjusteRow>, cuenta: string): Option<AjusteRow> {
    if rows == [] then None
    else if rows[|rows| - 1].nombreCuenta == cuenta then Some(rows[|rows| - 1])
    else UltimoAjuste(rows[..|rows| - 1], cuenta)
  }

  /** Read through the serialisation, the adjustments section holds, for
      each account, the debit and credit of that account's LAST adjustment
      row, and nothing for an account without one. */
  lemma {:induction false} AjustesPorCuenta(rows: seq<AjusteRow>, cuenta: string)
    ensures PyDict.LastValue(AjustePairs(SerializeAjustes(rows)), cuenta) ==
      match UltimoAjuste(rows, cuenta)
      case None => None
      case Some(a) => Some(DebeHaber(a.debe, a.haber))
  {
    if rows != [] {
      var ini := rows[..|rows| - 1];
      AjustesPorCuenta(ini, cuenta);
      var p := AjustePairs(SerializeAjustes(rows));
      assert p[..|p| - 1] == AjustePairs(SerializeAjustes(ini));
    }
  }

  /** `organize_financial_data`: each section maps a key to the value of the
      LAST record with that key, and holds no other key; a missing
      adjustments list gives an empty section. */
  method OrganizeFinancialData(data: FinancialInput) returns (o: Organized)
    ensures PyDict.Valid(o.balances) && PyDict.Valid(o.registrosAuxiliares)
    ensures PyDict.Valid(o.saldosIniciales) && PyDict.Valid(o.ajustes)
    ensures forall k :: PyDict.Get(o.balances, k) == PyDict.LastValue(BalancePairs(data.balances), k)
    ensures forall k :: PyDict.Get(o.registrosAuxiliares, k) == PyDict.LastValue(RegistroPairs(data.registrosAuxiliares), k)
    ensures forall k :: PyDict.Get(o.saldosIniciales, k) == PyDict.LastValue(SaldoPairs(data.saldosIniciales), k)
    ensures data.ajustes.Some? ==>
      forall k :: PyDict.Get(o.ajustes, k) == PyDict.LastValue(AjustePairs(data.ajustes.value), k)
    ensures data.ajustes.None? ==> o.ajustes == []
  {
    var balances := PyDict.Assign(BalancePairs(data.balances));
    var registros := PyDict.Assign(RegistroPairs(data.registrosAuxiliares));
    var saldos := PyDict.Assign(SaldoPairs(data.saldosIniciales));
    var ajustes := PyDict.Assign(AjustePairs(data.ajustes.GetOr([])));
    o := Organized(balances, registros, saldos, ajustes);
  }
}
