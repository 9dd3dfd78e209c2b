/** The time-tracking records (tools/models.py): what each `save` checks
    and sets, and how saving an activity keeps its per-month rows in step
    with its dates. Durations are whole seconds; each object keeps its
    fields in `datos` and the row last written in `enBase`. */
module TiemposModelos {
  import opened Wrappers
  import opened Text
  import opened Calendario
  import opened MesesEntreFechas

  /** The exceptions the saves and the services that call them raise. */
  datatype ErrorTiempos =
    | UserUnauthorized
    | StartDateAfterEndDateError
    | TotalWorkedDaysHigherThanScheduledDaysError
    | TotalWorkedHoursHigherThanScheduledHoursError
    | MonthOutOfRange          // the ValueError for a month outside 1..12
    | DuplicateMonthRow        // the ValueError for a second row of the same month
    | DateFormatError          // the ValueError of `strptime(date, "%Y-%m-%d")`
    | NullAppointmentNumberError
    | InvalidAppointmentNumberError
    | NullScheduledDaysError
    | InvalidScheduledDaysError
    | NullWorkedDaysError
    | InvalidWorkedDaysError
    | NullMonthError
    | InvalidMonthError
    | MonthDoesNotExitsError
    | NullScheduledHoursError
    | InvalidScheduledHoursError
    | NullWorkedHoursError
    | InvalidWorkedHoursError
    | NullCurrentStatusError
    | InvalidCurrentStatusError
    | CurrentStatusDoesNotExitsError
    | NullStartDateError
    | InvalidStartDateError
    | NullEndDateError
    | InvalidEndDateError
    | NullWorkinPapersError
    | NullReferenceError
    | NullNameError
    | InvalidYearError
    | InvalidTotalDaysError
    | DurationOverflowError    // the OverflowError of a `timedelta` out of range

  /** A user as the authorization check sees it: an id and a role name. */
  datatype Miembro = Miembro(id: nat, rol: string)

  /** An audit: its id, its manager's id and the ids of its assigned users. */
  datatype Auditoria = Auditoria(id: nat, gerente: nat, asignados: set<nat>)

  // ------------------------------------------------------------ authorization

  /** `check_if_audit_is_assigned_to_auditor` as written: it compares the
      user's role, a `Roles` row, with the strings "audit_manager",
      "supervisor" and "auditor"; a model row never equals a string, so
      every one of those comparisons is false and nothing is rejected. */
  function CheckAsignacionTalCual(u: Miembro, a: Auditoria): Option<ErrorTiempos> {
    var rolEsGerente := false;
    var rolEsSupervisorOAuditor := false;
    if rolEsGerente && a.gerente != u.id then Some(UserUnauthorized)
    else if rolEsSupervisorOAuditor && u.id !in a.asignados then Some(UserUnauthorized)
    else None
  }

  /** The check as intended, on the role's name: an audit_manager must
      manage the audit, a supervisor or auditor must be assigned to it. */
  function CheckIfAuditIsAssignedToAuditor(u: Miembro, a: Auditoria): Option<ErrorTiempos> {
    if u.rol == "audit_manager" && a.gerente != u.id then Some(UserUnauthorized)
    else if (u.rol == "supervisor" || u.rol == "auditor") && u.id !in a.asignados then Some(UserUnauthorized)
    else None
  }

  /** As written, the check lets everyone through: an auditor who is not
      assigned to the audit is one it should have stopped. */
  lemma AsignacionTalCualNoRechaza(u: Miembro, a: Auditoria)
    ensures CheckAsignacionTalCual(u, a) == None
    ensures u.rol == "auditor" && u.id !in a.asignados ==>
              CheckIfAuditIsAssignedToAuditor(u, a) == Some(UserUnauthorized)
  {
  }

  /** The intended check passes exactly when an audit_manager manages the
      audit and a supervisor or auditor is assigned to it; other roles
      always pass. */
  lemma CheckIfAuditIsAssignedToAuditorEs(u: Miembro, a: Auditoria)
    ensures CheckIfAuditIsAssignedToAuditor(u, a).None? <==>
              (u.rol == "audit_manager" ==> a.gerente == u.id) &&
              (u.rol == "supervisor" || u.rol == "auditor" ==> u.id in a.asignados)
    ensures CheckIfAuditIsAssignedToAuditor(u, a) != None ==> CheckIfAuditIsAssignedToAuditor(u, a) == Some(UserUnauthorized)
  {
  }

  // ------------------------------------------------------------ references

  /** `not reference`: Python's `None` or the empty string. */
  predicate Vacio(s: Option<string>) {
    s.None? || s.value == ""
  }

  /** The default reference: "Nom-" and the audit id, zero-padded to two
      digits below 10. */
  function ReferenciaPorDefecto(auditoria: nat): string {
    "Nom-" + TwoDigits(auditoria)
  }

  lemma DosCifras(n: nat)
    ensures DigitsValue(TwoDigits(n)) == n
  {
    if n < 10 {
      var s := TwoDigits(n);
      assert s == ['0', DigitChar(n)];
      assert s[..1] == ['0'];
      assert DigitsValue(['0']) == 0 by {
        assert ['0'][..0] == [];
      }
    } else {
      NatToStringValue(n);
    }
  }

  /** The default reference reads back as the audit id after "Nom-", with
      at least two digits. */
  lemma ReferenciaIdaYVuelta(auditoria: nat)
    ensures var r := ReferenciaPorDefecto(auditoria);
            StartsWith(r, "Nom-") && |r| >= 6 && IsDigits(r[4..]) && DigitsValue(r[4..]) == auditoria
  {
    var r := ReferenciaPorDefecto(auditoria);
    assert r[4..] == TwoDigits(auditoria);
    assert r[..4] == "Nom-";
    DosCifras(auditoria);
  }

  /** Distinct audits get distinct default references. */
  lemma ReferenciaInyectiva(a: nat, b: nat)
    requires ReferenciaPorDefecto(a) == ReferenciaPorDefecto(b)
    ensures a == b
  {
    ReferenciaIdaYVuelta(a);
    ReferenciaIdaYVuelta(b);
  }

  /** The reference a save leaves: the given one, or the default when none
      is given. */
  function ReferenciaFinal(referencia: Option<string>, auditoria: nat): (r: Option<string>)
    ensures !Vacio(r)
    ensures !Vacio(referencia) ==> r == referencia
  {
    if Vacio(referencia) then Some(ReferenciaPorDefecto(auditoria)) else referencia
  }

  /** `start >= end` on datetimes. */
  predicate NoAntes(inicio: Instante, fin: Instante) {
    NoPosterior(fin, inicio)
  }

  // ------------------------------------------------------------ WorkingPapersStatus

  datatype Papeles = Papeles(
    auditor: Miembro, auditoria: Auditoria, referencia: Option<string>, papeles: string,
    inicio: Instante, fin: Instante, estado: nat, observaciones: Option<string>, actualizado: int)

  /** What `WorkingPapersStatus.save` rejects, in its order. */
  function ValidarPapeles(d: Papeles): Option<ErrorTiempos> {
    var acceso := CheckAsignacionTalCual(d.auditor, d.auditoria);
    if acceso.Some? then acceso
    else if NoAntes(d.inicio, d.fin) then Some(StartDateAfterEndDateError)
    else None
  }

  class WorkingPapersStatus {
    var datos: Papeles
    var enBase: Option<Papeles>

    constructor(d: Papeles)
      ensures datos == d && enBase == None
    {
      datos, enBase := d, None;
    }

    /** `save()` at time `ahora`. */
    method Save(ahora: int) returns (error: Option<ErrorTiempos>)
      modifies this
      ensures error == ValidarPapeles(old(datos))
      ensures error.Some? ==> datos == old(datos) && enBase == old(enBase)
      ensures error.None? ==>
                datos == old(datos).(actualizado := ahora,
                                     referencia := ReferenciaFinal(old(datos).referencia, old(datos).auditoria.id)) &&
                enBase == Some(datos)
    {
      error := CheckAsignacionTalCual(datos.auditor, datos.auditoria);
      if error.Some? {
        return;
      }
      if NoPosterior(datos.fin, datos.inicio) {
        return Some(StartDateAfterEndDateError);
      }
      datos := datos.(actualizado := ahora);
      if datos.referencia.None? || datos.referencia.value == "" {
        datos := datos.(referencia := Some(ReferenciaPorDefecto(datos.auditoria.id)));
      }
      enBase := Some(datos);
    }
  }

  /** As written, a working-papers row is stored exactly when its start is
      before its end, whoever saves it; otherwise the error is the date
      error. */
  lemma ValidarPapelesEs(d: Papeles)
    ensures ValidarPapeles(d).None? <==> !NoAntes(d.inicio, d.fin)
    ensures ValidarPapeles(d).Some? ==> ValidarPapeles(d) == Some(StartDateAfterEndDateError)
  {
    AsignacionTalCualNoRechaza(d.auditor, d.auditoria);
  }

  // ------------------------------------------------------------ summaries

  /** The stored difference of a summary: scheduled minus worked, never
      negative. */
  predicate Cuadra(programado: int, trabajado: int, diferencia: Option<int>) {
    diferencia == Some(programado - trabajado) && trabajado <= programado
  }

  datatype Horas = Horas(
    auditor: Miembro, auditoria: Auditoria, mes: nat, programadas: int, trabajadas: int,
    diferencia: Option<int>, observaciones: Option<string>, actualizado: int)

  /** What `SummaryHoursWorked.save` rejects, in its order. */
  function ValidarHoras(d: Horas): Option<ErrorTiempos> {
    var acceso := CheckAsignacionTalCual(d.auditor, d.auditoria);
    if acceso.Some? then acceso
    else if d.trabajadas > d.programadas then Some(TotalWorkedHoursHigherThanScheduledHoursError)
    else None
  }

  class SummaryHoursWorked {
    var datos: Horas
    var enBase: Option<Horas>

    constructor(d: Horas)
      ensures datos == d && enBase == None
    {
      datos, enBase := d, None;
    }

    /** `save()` at time `ahora`. */
    method Save(ahora: int) returns (error: Option<ErrorTiempos>)
      modifies this
      ensures error == ValidarHoras(old(datos))
      ensures error.Some? ==> datos == old(datos) && enBase == old(enBase)
      ensures error.None? ==>
                datos == old(datos).(diferencia := Some(old(datos).programadas - old(datos).trabajadas), actualizado := ahora) &&
                enBase == Some(datos) && Cuadra(datos.programadas, datos.trabajadas, datos.diferencia)
    {
      error := CheckAsignacionTalCual(datos.auditor, datos.auditoria);
      if error.Some? {
        return;
      }
      if datos.trabajadas > datos.programadas {
        return Some(TotalWorkedHoursHigherThanScheduledHoursError);
      }
      datos := datos.(diferencia := Some(datos.programadas - datos.trabajadas));
      datos := datos.(actualizado := ahora);
      enBase := Some(datos);
    }
  }

  datatype ResumenDias = ResumenDias(
    auditor: Miembro, auditoria: Auditoria, nombramiento: string, programados: int, trabajados: int,
    diferencia: Option<int>, observaciones: Option<string>, actualizado: int)

  /** What `AuditTimeSummary.save` rejects, in its order. */
  function ValidarResumen(d: ResumenDias): Option<ErrorTiempos> {
    var acceso := CheckAsignacionTalCual(d.auditor, d.auditoria);
    if acceso.Some? then acceso
    else if d.trabajados > d.programados then Some(TotalWorkedDaysHigherThanScheduledDaysError)
    else None
  }

  class AuditTimeSummary {
    var datos: ResumenDias
    var enBase: Option<ResumenDias>

    constructor(d: ResumenDias)
      ensures datos == d && enBase == None
    {
      datos, enBase := d, None;
    }

    /** `save()` at time `ahora`. */
    method Save(ahora: int) returns (error: Option<ErrorTiempos>)
      modifies this
      ensures error == ValidarResumen(old(datos))
      ensures error.Some? ==> datos == old(datos) && enBase == old(enBase)
      ensures error.None? ==>
                datos == old(datos).(diferencia := Some(old(datos).programados - old(datos).trabajados), actualizado := ahora) &&
                enBase == Some(datos) && Cuadra(datos.programados, datos.trabajados, datos.diferencia)
    {
      error := CheckAsignacionTalCual(datos.auditor, datos.auditoria);
      if error.Some? {
        return;
      }
      if datos.trabajados > datos.programados {
        return Some(TotalWorkedDaysHigherThanScheduledDaysError);
      }
      datos := datos.(diferencia := Some(datos.programados - datos.trabajados));
      datos := datos.(actualizado := ahora);
      enBase := Some(datos);
    }
  }

  /** As written, a summary is stored exactly when the worked time does not
      exceed the scheduled time, whoever saves it. */
  lemma ValidarResumenEs(d: ResumenDias)
    ensures ValidarResumen(d).None? <==> d.trabajados <= d.programados
    ensures ValidarResumen(d).Some? ==> ValidarResumen(d) == Some(TotalWorkedDaysHigherThanScheduledDaysError)
  {
  }

  lemma ValidarHorasEs(d: Horas)
    ensures ValidarHoras(d).None? <==> d.trabajadas <= d.programadas
    ensures ValidarHoras(d).Some? ==> ValidarHoras(d) == Some(TotalWorkedHoursHigherThanScheduledHoursError)
  {
  }

  // ------------------------------------------------------------ per-month rows

  /** An `ActivityTotalDaysPerMonth` row. */
  datatype FilaMes = FilaMes(actividad: nat, mes: int, anio: int, dias: int)

  /** Some row holds this activity, month and year. */
  predicate Existe(filas: seq<FilaMes>, actividad: nat, mes: int, anio: int) {
    exists j :: 0 <= j < |filas| && filas[j].actividad == actividad && filas[j].mes == mes && filas[j].anio == anio
  }

  /** No two rows share an activity, month and year. */
  predicate ClavesUnicas(filas: seq<FilaMes>) {
    forall i, j :: 0 <= i < j < |filas| ==>
      !(filas[i].actividad == filas[j].actividad && filas[i].mes == filas[j].mes && filas[i].anio == filas[j].anio)
  }

  /** Another row than `i` (any row, for a new one: `i == |filas|`) holds
      the same activity, month and year as `f`. */
  predicate OtraIgual(filas: seq<FilaMes>, i: nat, f: FilaMes) {
    exists j :: 0 <= j < |filas| && j != i && filas[j].actividad == f.actividad && filas[j].mes == f.mes && filas[j].anio == f.anio
  }

  /** `ActivityTotalDaysPerMonth.save` of `f` at position `i` of the table
      (`i == |filas|` inserts it): the month must be 1..12 and no other
      row may hold the same activity, month and year. */
  function GuardarFila(filas: seq<FilaMes>, i: nat, f: FilaMes): (r: Result<seq<FilaMes>, ErrorTiempos>)
    requires i <= |filas|
    ensures r.Ok? ==> |r.value| == (if i == |filas| then |filas| + 1 else |filas|) && r.value[i] == f
  {
    if !(1 <= f.mes <= 12) then Err(MonthOutOfRange)
    else if OtraIgual(filas, i, f) then Err(DuplicateMonthRow)
    else if i == |filas| then Ok(filas + [f])
    else Ok(filas[i := f])
  }

  /** Saving never breaks the uniqueness of (activity, month, year). */
  lemma GuardarFilaUnica(filas: seq<FilaMes>, i: nat, f: FilaMes)
    requires i <= |filas| && ClavesUnicas(filas)
    ensures GuardarFila(filas, i, f).Ok? ==> ClavesUnicas(GuardarFila(filas, i, f).value)
    ensures GuardarFila(filas, i, f).Ok? ==> 1 <= f.mes <= 12
  {
    if GuardarFila(filas, i, f).Ok? {
      var g := GuardarFila(filas, i, f).value;
      forall a, b | 0 <= a < b < |g|
        ensures !(g[a].actividad == g[b].actividad && g[a].mes == g[b].mes && g[a].anio == g[b].anio)
      {
        if a == i {
          assert g[b] == filas[b];
        } else if b == i {
          assert g[a] == filas[a];
        }
      }
    }
  }

  /** A new row for an absent month in 1..12 is always accepted. */
  lemma GuardarFilaNueva(filas: seq<FilaMes>, f: FilaMes)
    requires 1 <= f.mes <= 12 && !Existe(filas, f.actividad, f.mes, f.anio)
    ensures GuardarFila(filas, |filas|, f) == Ok(filas + [f])
  {
  }

  class TablaMeses {
    var filas: seq<FilaMes>

    constructor(filas0: seq<FilaMes>)
      ensures filas == filas0
    {
      filas := filas0;
    }

    /** `save()` of row `i`, or of a new row when `i == |filas|`. */
    method Save(i: nat, f: FilaMes) returns (error: Option<ErrorTiempos>)
      requires i <= |filas|
      modifies this
      ensures var r := GuardarFila(old(filas), i, f);
              (r.Ok? ==> error == None && filas == r.value) &&
              (r.Err? ==> error == Some(r.error) && filas == old(filas))
    {
      var r := GuardarFila(filas, i, f);
      if r.Err? {
        return Some(r.error);
      }
      filas := r.value;
      error := None;
    }
  }

  /** The table after creating, in order, a zero-day row for each of the
      first `k` (month, year) pairs that has none yet. */
  function ConFaltantes(filas: seq<FilaMes>, actividad: nat, meses: seq<int>, anios: seq<int>, k: nat): (r: seq<FilaMes>)
    requires k <= |meses| == |anios|
    ensures |filas| <= |r|
  {
    if k == 0 then filas
    else
      var t := ConFaltantes(filas, actividad, meses, anios, k - 1);
      if Existe(t, actividad, meses[k - 1], anios[k - 1]) then t
      else t + [FilaMes(actividad, meses[k - 1], anios[k - 1], 0)]
  }

  /** The rows kept by the clean-up: those of other activities, and those
      whose month is among the months and whose year is among the years,
      each checked on its own. */
  predicate Conservada(f: FilaMes, actividad: nat, meses: seq<int>, anios: seq<int>) {
    f.actividad != actividad || (f.mes in meses && f.anio in anios)
  }

  function Depurar(filas: seq<FilaMes>, actividad: nat, meses: seq<int>, anios: seq<int>): seq<FilaMes> {
    if filas == [] then []
    else
      var resto := Depurar(filas[..|filas| - 1], actividad, meses, anios);
      if Conservada(filas[|filas| - 1], actividad, meses, anios) then resto + [filas[|filas| - 1]] else resto
  }

  /** `get_total_days()`: the sum of the activity's per-month totals. */
  function TotalDias(filas: seq<FilaMes>, actividad: nat): int {
    if filas == [] then 0
    else TotalDias(filas[..|filas| - 1], actividad) +
         (if filas[|filas| - 1].actividad == actividad then filas[|filas| - 1].dias else 0)
  }

  datatype Actividad = Actividad(
    id: nat, auditoria: nat, nombre: string, referencia: Option<string>, nombramiento: string,
    inicio: Instante, fin: Instante, estado: nat, observaciones: Option<string>)

  /** `get_valid_years_and_months()`: the months and the years the activity
      spans. */
  function Meses(a: Actividad): (r: seq<int>) {
    seq(Cantidad(a.inicio, a.fin), k requires 0 <= k < Cantidad(a.inicio, a.fin) => MesDe(IndiceDe(a.inicio) + k))
  }

  function Anios(a: Actividad): (r: seq<int>) {
    seq(Cantidad(a.inicio, a.fin), k requires 0 <= k < Cantidad(a.inicio, a.fin) => AnioDe(IndiceDe(a.inicio) + k))
  }

  /** The lists the month enumeration returns are `Meses` and `Anios`. */
  lemma MesesDeActividad(a: Actividad, meses: seq<int>, anios: seq<int>)
    requires |meses| == |anios| == Cantidad(a.inicio, a.fin)
    requires forall k :: 0 <= k < |meses| ==>
               meses[k] == MesDe(IndiceDe(a.inicio) + k) && anios[k] == AnioDe(IndiceDe(a.inicio) + k)
    ensures meses == Meses(a) && anios == Anios(a)
  {
  }

  /** The per-month rows after an activity's save. */
  function Sincronizadas(filas: seq<FilaMes>, a: Actividad): seq<FilaMes> {
    Depurar(ConFaltantes(filas, a.id, Meses(a), Anios(a), |Meses(a)|), a.id, Meses(a), Anios(a))
  }

  class Activity {
    var datos: Actividad
    var enBase: Option<Actividad>
    const tabla: TablaMeses

    constructor(d: Actividad, tabla0: TablaMeses)
      ensures datos == d && enBase == None && tabla == tabla0
    {
      datos, enBase, tabla := d, None, tabla0;
    }

    /** `save()`: reject a start not before the end, fill in the reference,
        write the row, then create the missing per-month rows and delete
        those outside the activity's months or years. */
    method Save() returns (error: Option<ErrorTiempos>)
      requires InstanteValido(datos.inicio) && InstanteValido(datos.fin)
      modifies this, tabla
      ensures NoAntes(old(datos).inicio, old(datos).fin) ==>
                error == Some(StartDateAfterEndDateError) && datos == old(datos) &&
                enBase == old(enBase) && tabla.filas == old(tabla.filas)
      ensures !NoAntes(old(datos).inicio, old(datos).fin) ==>
                error == None &&
                datos == old(datos).(referencia := ReferenciaFinal(old(datos).referencia, old(datos).auditoria)) &&
                enBase == Some(datos) && tabla.filas == Sincronizadas(old(tabla.filas), datos)
    {
      if NoPosterior(datos.fin, datos.inicio) {
        return Some(StartDateAfterEndDateError);
      }
      if datos.referencia.None? || datos.referencia.value == "" {
        datos := datos.(referencia := Some(ReferenciaPorDefecto(datos.auditoria)));
      }
      enBase := Some(datos);
      var meses, anios := GetAndYearMonthsBetweenDates(datos.inicio, datos.fin);
      MesesDeActividad(datos, meses, anios);
      var t := CrearFaltantes(tabla.filas, datos.id, meses, anios);
      t := DepurarFilas(t, datos.id, meses, anios);
      tabla.filas := t;
      error := None;
    }
  }

  /** `__create_activity_total_days_per_month_instances`: a zero-day row
      for every (month, year) of the activity that has none. */
  method CrearFaltantes(filas: seq<FilaMes>, actividad: nat, meses: seq<int>, anios: seq<int>) returns (t: seq<FilaMes>)
    requires |meses| == |anios|
    ensures t == ConFaltantes(filas, actividad, meses, anios, |meses|)
  {
    t := filas;
    for k := 0 to |meses|
      invariant t == ConFaltantes(filas, actividad, meses, anios, k)
    {
      if !Existe(t, actividad, meses[k], anios[k]) {
        t := t + [FilaMes(actividad, meses[k], anios[k], 0)];
      }
    }
  }

  /** `__check_activity_total_days_per_month_instances`: delete the rows of
      the activity whose month is not among the months or whose year is not
      among the years. */
  method DepurarFilas(filas: seq<FilaMes>, actividad: nat, meses: seq<int>, anios: seq<int>) returns (t: seq<FilaMes>)
    ensures t == Depurar(filas, actividad, meses, anios)
  {
    t := [];
    for j := 0 to |filas|
      invariant t == Depurar(filas[..j], actividad, meses, anios)
    {
      assert filas[..j + 1][..j] == filas[..j];
      if filas[j].actividad == actividad && (filas[j].mes !in meses || filas[j].anio !in anios) {
        continue;
      }
      t := t + [filas[j]];
    }
    assert filas[..|filas|] == filas;
  }

  // ------------------------------------------------------------ properties

  /** Creation keeps every existing row in place. */
  lemma {:induction false} ConFaltantesConserva(filas: seq<FilaMes>, actividad: nat, meses: seq<int>, anios: seq<int>, k: nat)
    requires k <= |meses| == |anios|
    ensures ConFaltantes(filas, actividad, meses, anios, k)[..|filas|] == filas
  {
    if k > 0 {
      ConFaltantesConserva(filas, actividad, meses, anios, k - 1);
      var t := ConFaltantes(filas, actividad, meses, anios, k - 1);
      if !Existe(t, actividad, meses[k - 1], anios[k - 1]) {
        assert (t + [FilaMes(actividad, meses[k - 1], anios[k - 1], 0)])[..|filas|] == t[..|filas|];
      }
    }
  }

  lemma ExisteCrece(t: seq<FilaMes>, f: FilaMes, actividad: nat, mes: int, anio: int)
    requires Existe(t, actividad, mes, anio)
    ensures Existe(t + [f], actividad, mes, anio)
  {
    var j :| 0 <= j < |t| && t[j].actividad == actividad && t[j].mes == mes && t[j].anio == anio;
    assert (t + [f])[j] == t[j];
  }

  /** After creation every (month, year) of the first `k` has a row. */
  lemma {:induction false} ConFaltantesCubre(filas: seq<FilaMes>, actividad: nat, meses: seq<int>, anios: seq<int>, k: nat, m: nat)
    requires k <= |meses| == |anios| && m < k
    ensures Existe(ConFaltantes(filas, actividad, meses, anios, k), actividad, meses[m], anios[m])
  {
    var t := ConFaltantes(filas, actividad, meses, anios, k - 1);
    var f := FilaMes(actividad, meses[k - 1], anios[k - 1], 0);
    if m < k - 1 {
      ConFaltantesCubre(filas, actividad, meses, anios, k - 1, m);
      if !Existe(t, actividad, meses[k - 1], anios[k - 1]) {
        ExisteCrece(t, f, actividad, meses[m], anios[m]);
      }
    } else if !Existe(t, actividad, meses[k - 1], anios[k - 1]) {
      assert (t + [f])[|t|] == f;
    }
  }

  /** Creation adds no second row for any (activity, month, year). */
  lemma {:induction false} ConFaltantesUnica(filas: seq<FilaMes>, actividad: nat, meses: seq<int>, anios: seq<int>, k: nat)
    requires k <= |meses| == |anios| && ClavesUnicas(filas)
    ensures ClavesUnicas(ConFaltantes(filas, actividad, meses, anios, k))
  {
    if k > 0 {
      ConFaltantesUnica(filas, actividad, meses, anios, k - 1);
      var t := ConFaltantes(filas, actividad, meses, anios, k - 1);
      if !Existe(t, actividad, meses[k - 1], anios[k - 1]) {
        var g := t + [FilaMes(actividad, meses[k - 1], anios[k - 1], 0)];
        forall a, b | 0 <= a < b < |g|
          ensures !(g[a].actividad == g[b].actividad && g[a].mes == g[b].mes && g[a].anio == g[b].anio)
        {
          if b == |t| {
            assert g[a] == t[a];
          } else {
            assert g[a] == t[a] && g[b] == t[b];
          }
        }
      }
    }
  }

  lemma TotalDiasAnexar(t: seq<FilaMes>, f: FilaMes, actividad: nat)
    ensures TotalDias(t + [f], actividad) == TotalDias(t, actividad) + (if f.actividad == actividad then f.dias else 0)
  {
    assert (t + [f])[..|t|] == t;
  }

  /** The created rows hold zero days, so creation leaves every activity's
      total as it was. */
  lemma {:induction false} ConFaltantesTotal(filas: seq<FilaMes>, actividad: nat, meses: seq<int>, anios: seq<int>, k: nat, otra: nat)
    requires k <= |meses| == |anios|
    ensures TotalDias(ConFaltantes(filas, actividad, meses, anios, k), otra) == TotalDias(filas, otra)
  {
    if k > 0 {
      ConFaltantesTotal(filas, actividad, meses, anios, k - 1, otra);
      var t := ConFaltantes(filas, actividad, meses, anios, k - 1);
      if !Existe(t, actividad, meses[k - 1], anios[k - 1]) {
        TotalDiasAnexar(t, FilaMes(actividad, meses[k - 1], anios[k - 1], 0), otra);
      }
    }
  }

  /** A row survives the clean-up exactly when it is kept by `Conservada`. */
  lemma {:induction false} DepurarEs(filas: seq<FilaMes>, actividad: nat, meses: seq<int>, anios: seq<int>, f: FilaMes)
    ensures f in Depurar(filas, actividad, meses, anios) <==> f in filas && Conservada(f, actividad, meses, anios)
  {
    if filas != [] {
      var ini := filas[..|filas| - 1];
      DepurarEs(ini, actividad, meses, anios, f);
      assert filas == ini + [filas[|filas| - 1]];
    }
  }

  /** Month and year are checked apart: for an activity from November 2023
      to February 2024, a row for November 2024 survives the clean-up. */
  lemma MesYAnioPorSeparado()
    ensures Conservada(FilaMes(1, 11, 2024, 0), 1, [11, 12, 1, 2], [2023, 2023, 2024, 2024])
  {
    assert [11, 12, 1, 2][0] == 11;
    assert [2023, 2023, 2024, 2024][2] == 2024;
  }

  /** `get_total_days()` is zero when the activity has no rows. */
  lemma {:induction false} TotalDiasSinFilas(filas: seq<FilaMes>, actividad: nat)
    requires forall j :: 0 <= j < |filas| ==> filas[j].actividad != actividad
    ensures TotalDias(filas, actividad) == 0
  {
    if filas != [] {
      TotalDiasSinFilas(filas[..|filas| - 1], actividad);
    }
  }

  /** With no negative per-month total, the activity's total is not
      negative either. */
  lemma {:induction false} TotalDiasNoNegativo(filas: seq<FilaMes>, actividad: nat)
    requires forall j :: 0 <= j < |filas| ==> filas[j].dias >= 0
    ensures TotalDias(filas, actividad) >= 0
  {
    if filas != [] {
      TotalDiasNoNegativo(filas[..|filas| - 1], actividad);
    }
  }
}
