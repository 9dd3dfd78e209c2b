/** The time-tracking services (tools/services.py): the order in which each
    update checks its text inputs, what it then writes, and the status time
    line. An input that may be Python's `None` is an `Option<string>`. */
module TiemposServicios {
  import opened Wrappers
  import opened Text
  import opened Calendario
  import opened MesesEntreFechas
  import opened Duraciones
  import opened TiemposModelos

  /** A date string as the services see it: empty, not a date in any of the
      four formats `is_valid_date` tries, a date in one of the three formats
      other than "%Y-%m-%d", or a "%Y-%m-%d" date. `strptime` only returns
      real dates. */
  datatype EntradaFecha = SinFecha | NoEsFecha | OtroFormato | Dia(fecha: Fecha)

  type Fechas = e: EntradaFecha | e.Dia? ==> Valida(e.fecha) witness SinFecha

  /** `is_valid_date(s)` */
  predicate IsValidDate(e: Fechas) {
    e.OtroFormato? || e.Dia?
  }

  /** `convert_date_str_to_datetime(s)`: midnight UTC of a "%Y-%m-%d" date;
      any other format raises. */
  function ConvertDate(e: Fechas): (r: Result<Instante, ErrorTiempos>)
    ensures r.Ok? ==> InstanteValido(r.value)
  {
    if e.Dia? then Ok(Instante(e.fecha, 0)) else Err(DateFormatError)
  }

  /** `s.isdigit()` on a present string. */
  predicate Cifras(s: Option<string>) {
    s.Some? && IsDigits(s.value)
  }

  /** `int(s)` */
  function Valor(s: Option<string>): nat
    requires Cifras(s)
  {
    DigitsValue(s.value)
  }

  /** `observations if observations else None` */
  function SinVacio(s: Option<string>): (r: Option<string>)
    ensures r.Some? ==> r.value != ""
  {
    if Vacio(s) then None else s
  }

  // ------------------------------------------------------------ update_audit_time_summary

  /** The checks of `update_audit_time_summary`, in order; on success the
      appointment number, scheduled days and worked days as numbers. The
      `int(worked_days) < 0` test never holds after `isdigit`. */
  function ValidarResumenEntrada(nombramiento: Option<string>, programados: Option<string>, trabajados: Option<string>): (r: Result<(nat, nat, nat), ErrorTiempos>)
  {
    if Vacio(nombramiento) then Err(NullAppointmentNumberError)
    else if Vacio(programados) then Err(NullScheduledDaysError)
    else if !IsDigits(nombramiento.value) then Err(InvalidAppointmentNumberError)
    else if !IsDigits(programados.value) then Err(InvalidScheduledDaysError)
    else if trabajados.None? then Err(NullWorkedDaysError)
    else if !IsDigits(trabajados.value) then Err(InvalidWorkedDaysError)
    else if Valor(trabajados) > Valor(programados) then Err(TotalWorkedDaysHigherThanScheduledDaysError)
    else Ok((Valor(nombramiento), Valor(programados), Valor(trabajados)))
  }

  /** The inputs pass exactly when all three are digit strings and the
      worked days do not exceed the scheduled days; the numbers returned
      are the values of those strings. */
  lemma ValidarResumenEntradaEs(nombramiento: Option<string>, programados: Option<string>, trabajados: Option<string>)
    ensures var r := ValidarResumenEntrada(nombramiento, programados, trabajados);
            r.Ok? <==> Cifras(nombramiento) && Cifras(programados) && Cifras(trabajados) &&
                       Valor(trabajados) <= Valor(programados)
    ensures var r := ValidarResumenEntrada(nombramiento, programados, trabajados);
            r.Ok? ==> r.value == (Valor(nombramiento), Valor(programados), Valor(trabajados))
  {
  }

  /** What `update_audit_time_summary` assigns before it saves: the day
      counts as durations of that many days. */
  function ResumenAsignado(d: ResumenDias, v: (nat, nat, nat), observaciones: Option<string>): ResumenDias {
    d.(nombramiento := NatToString(v.0),
       programados := v.1 * 86400,
       trabajados := v.2 * 86400,
       observaciones := observaciones)
  }

  /** `update_audit_time_summary(...)` at time `ahora`. */
  method UpdateAuditTimeSummary(r: AuditTimeSummary, nombramiento: Option<string>, programados: Option<string>,
                                trabajados: Option<string>, observaciones: Option<string>, ahora: int)
    returns (error: Option<ErrorTiempos>)
    modifies r
    ensures var v := ValidarResumenEntrada(nombramiento, programados, trabajados);
            v.Err? ==> error == Some(v.error) && r.datos == old(r.datos) && r.enBase == old(r.enBase)
    ensures var v := ValidarResumenEntrada(nombramiento, programados, trabajados);
            v.Ok? && v.value.1 > MaxDias ==>
              error == Some(DurationOverflowError) && r.datos == old(r.datos) && r.enBase == old(r.enBase)
    ensures var v := ValidarResumenEntrada(nombramiento, programados, trabajados);
            v.Ok? && v.value.1 <= MaxDias ==>
              var d := ResumenAsignado(old(r.datos), v.value, observaciones);
              error == ValidarResumen(d) &&
              (error.Some? ==> r.datos == d && r.enBase == old(r.enBase)) &&
              (error.None? ==> r.datos == d.(diferencia := Some(d.programados - d.trabajados), actualizado := ahora) &&
                               r.enBase == Some(r.datos))
    ensures var v := ValidarResumenEntrada(nombramiento, programados, trabajados);
            v.Ok? && v.value.1 <= MaxDias ==> error == None
  {
    var v := ValidarResumenEntrada(nombramiento, programados, trabajados);
    if v.Err? {
      return Some(v.error);
    }
    var (n, p, t) := v.value;
    DiasEnRango(p);
    DiasEnRango(t);
    var duracionProgramada := FormatDurationField(p, "days");
    if duracionProgramada.Err? {
      return Some(DurationOverflowError);
    }
    var duracionTrabajada := FormatDurationField(t, "days");
    if duracionTrabajada.Err? {
      return Some(DurationOverflowError);
    }
    r.datos := r.datos.(nombramiento := NatToString(n));
    r.datos := r.datos.(programados := duracionProgramada.value.value);
    r.datos := r.datos.(trabajados := duracionTrabajada.value.value);
    r.datos := r.datos.(observaciones := observaciones);
    ResumenGuardado(old(r.datos), nombramiento, programados, trabajados, observaciones);
    error := r.Save(ahora);
  }

  /** The stored scheduled days read back, through the day-number filter,
      as the number entered without leading zeros; once the entry passes
      its checks, the save accepts the summary, whoever makes it. */
  lemma ResumenGuardado(d: ResumenDias, nombramiento: Option<string>, programados: Option<string>, trabajados: Option<string>, observaciones: Option<string>)
    requires ValidarResumenEntrada(nombramiento, programados, trabajados).Ok?
    requires Valor(programados) <= MaxDias
    ensures var v := ValidarResumenEntrada(nombramiento, programados, trabajados).value;
            var e := ResumenAsignado(d, v, observaciones);
            ValidarResumen(e) == None &&
            FormatDurationDayNumber(Delta(e.programados)) == NatToString(Valor(programados)) &&
            DigitsValue(e.nombramiento) == Valor(nombramiento)
  {
    var v := ValidarResumenEntrada(nombramiento, programados, trabajados).value;
    DiasIdaYVuelta(v.1);
    NatToStringValue(v.0);
  }

  // ------------------------------------------------------------ update_summary_hours_worked

  /** The checks of `update_summary_hours_worked`, in order, with the month
      lookup in `mesesExistentes` last; on success the month id, scheduled
      hours and worked hours. The second `isdigit` test of the worked hours
      repeats one already passed. */
  function ValidarHorasEntrada(mes: Option<string>, programadas: Option<string>, trabajadas: Option<string>, mesesExistentes: set<nat>): (r: Result<(nat, nat, nat), ErrorTiempos>)
  {
    if Vacio(mes) then Err(NullMonthError)
    else if Vacio(programadas) then Err(NullScheduledHoursError)
    else if trabajadas.None? then Err(NullWorkedHoursError)
    else if !IsDigits(trabajadas.value) then Err(InvalidWorkedHoursError)
    else if !IsDigits(mes.value) then Err(InvalidMonthError)
    else if !IsDigits(trabajadas.value) then Err(InvalidWorkedHoursError)
    else if !IsDigits(programadas.value) then Err(InvalidScheduledHoursError)
    else if Valor(trabajadas) > Valor(programadas) then Err(TotalWorkedHoursHigherThanScheduledHoursError)
    else if Valor(mes) !in mesesExistentes then Err(MonthDoesNotExitsError)
    else Ok((Valor(mes), Valor(programadas), Valor(trabajadas)))
  }

  lemma ValidarHorasEntradaEs(mes: Option<string>, programadas: Option<string>, trabajadas: Option<string>, mesesExistentes: set<nat>)
    ensures var r := ValidarHorasEntrada(mes, programadas, trabajadas, mesesExistentes);
            r.Ok? <==> Cifras(mes) && Cifras(programadas) && Cifras(trabajadas) &&
                       Valor(trabajadas) <= Valor(programadas) && Valor(mes) in mesesExistentes
    ensures var r := ValidarHorasEntrada(mes, programadas, trabajadas, mesesExistentes);
            r.Ok? ==> r.value == (Valor(mes), Valor(programadas), Valor(trabajadas))
  {
  }

  /** What `update_summary_hours_worked` assigns before it saves: the hour
      counts as durations of that many hours. */
  function HorasAsignadas(d: Horas, v: (nat, nat, nat), observaciones: Option<string>): Horas {
    d.(mes := v.0,
       trabajadas := v.2 * 3600,
       programadas := v.1 * 3600,
       observaciones := SinVacio(observaciones))
  }

  /** `update_summary_hours_worked(...)` at time `ahora`. */
  method UpdateSummaryHoursWorked(r: SummaryHoursWorked, mes: Option<string>, programadas: Option<string>,
                                  trabajadas: Option<string>, observaciones: Option<string>,
                                  mesesExistentes: set<nat>, ahora: int)
    returns (error: Option<ErrorTiempos>)
    modifies r
    ensures var v := ValidarHorasEntrada(mes, programadas, trabajadas, mesesExistentes);
            v.Err? ==> error == Some(v.error) && r.datos == old(r.datos) && r.enBase == old(r.enBase)
    ensures var v := ValidarHorasEntrada(mes, programadas, trabajadas, mesesExistentes);
            v.Ok? && v.value.1 / 24 > MaxDias ==>
              error == Some(DurationOverflowError) && r.datos == old(r.datos) && r.enBase == old(r.enBase)
    ensures var v := ValidarHorasEntrada(mes, programadas, trabajadas, mesesExistentes);
            v.Ok? && v.value.1 / 24 <= MaxDias ==>
              var d := HorasAsignadas(old(r.datos), v.value, observaciones);
              error == ValidarHoras(d) &&
              (error.Some? ==> r.datos == d && r.enBase == old(r.enBase)) &&
              (error.None? ==> r.datos == d.(diferencia := Some(d.programadas - d.trabajadas), actualizado := ahora) &&
                               r.enBase == Some(r.datos))
    ensures var v := ValidarHorasEntrada(mes, programadas, trabajadas, mesesExistentes);
            v.Ok? && v.value.1 / 24 <= MaxDias ==> error == None
  {
    var v := ValidarHorasEntrada(mes, programadas, trabajadas, mesesExistentes);
    if v.Err? {
      return Some(v.error);
    }
    var (m, p, t) := v.value;
    DiasEnRango(p);
    DiasEnRango(t);
    var duracionProgramada := FormatDurationField(p, "hours");
    if duracionProgramada.Err? {
      return Some(DurationOverflowError);
    }
    var duracionTrabajada := FormatDurationField(t, "hours");
    if duracionTrabajada.Err? {
      return Some(DurationOverflowError);
    }
    r.datos := r.datos.(mes := m);
    r.datos := r.datos.(trabajadas := duracionTrabajada.value.value);
    r.datos := r.datos.(programadas := duracionProgramada.value.value);
    r.datos := r.datos.(observaciones := if Vacio(observaciones) then None else observaciones);
    HorasGuardadas(old(r.datos), mes, programadas, trabajadas, observaciones, mesesExistentes);
    error := r.Save(ahora);
  }

  /** Once the entry passes its checks, the save accepts the row, whoever
      makes it; the hours are stored as durations of that many hours and an
      empty observation is not kept. */
  lemma HorasGuardadas(d: Horas, mes: Option<string>, programadas: Option<string>, trabajadas: Option<string>,
                       observaciones: Option<string>, mesesExistentes: set<nat>)
    requires ValidarHorasEntrada(mes, programadas, trabajadas, mesesExistentes).Ok?
    ensures var v := ValidarHorasEntrada(mes, programadas, trabajadas, mesesExistentes).value;
            var e := HorasAsignadas(d, v, observaciones);
            ValidarHoras(e) == None &&
            e.programadas == Valor(programadas) * 3600 && e.trabajadas == Valor(trabajadas) * 3600 &&
            (observaciones == Some("") ==> e.observaciones == None)
  {
  }

  // ------------------------------------------------------------ update_status_of_work_papers

  /** The values `update_status_of_work_papers` assigns. */
  datatype CambioPapeles = CambioPapeles(referencia: string, papeles: string, inicio: Instante, fin: Instante, estado: nat)

  /** The checks of `update_status_of_work_papers`, in order, with the
      status lookup in `estados`. */
  function ValidarPapelesEntrada(estado: Option<string>, fin: Fechas, inicio: Fechas, papeles: Option<string>,
                                 referencia: Option<string>, estados: set<nat>): (r: Result<CambioPapeles, ErrorTiempos>)
    ensures r.Ok? ==> !NoAntes(r.value.inicio, r.value.fin) && r.value.estado in estados
  {
    if Vacio(estado) then Err(NullCurrentStatusError)
    else if !IsDigits(estado.value) then Err(InvalidCurrentStatusError)
    else if fin.SinFecha? then Err(NullEndDateError)
    else if inicio.SinFecha? then Err(NullStartDateError)
    else if Vacio(papeles) then Err(NullWorkinPapersError)
    else if !IsValidDate(inicio) then Err(InvalidStartDateError)
    else if !IsValidDate(fin) then Err(InvalidEndDateError)
    else if Vacio(referencia) then Err(NullReferenceError)
    else if Valor(estado) !in estados then Err(CurrentStatusDoesNotExitsError)
    else if ConvertDate(inicio).Err? then Err(ConvertDate(inicio).error)
    else if ConvertDate(fin).Err? then Err(ConvertDate(fin).error)
    else if NoAntes(ConvertDate(inicio).value, ConvertDate(fin).value) then Err(StartDateAfterEndDateError)
    else Ok(CambioPapeles(referencia.value, papeles.value, ConvertDate(inicio).value, ConvertDate(fin).value, Valor(estado)))
  }

  /** Every field already holds the value the update would write. */
  predicate SinCambios(d: Papeles, c: CambioPapeles, observaciones: Option<string>) {
    Some(c.referencia) == d.referencia && c.papeles == d.papeles && c.inicio == d.inicio &&
    c.fin == d.fin && c.estado == d.estado && observaciones == d.observaciones
  }

  function PapelesAsignados(d: Papeles, c: CambioPapeles, observaciones: Option<string>): Papeles {
    d.(referencia := Some(c.referencia), papeles := c.papeles, inicio := c.inicio, fin := c.fin,
       estado := c.estado, observaciones := SinVacio(observaciones))
  }

  /** `update_status_of_work_papers(...)` at time `ahora`. */
  method UpdateStatusOfWorkPapers(r: WorkingPapersStatus, estado: Option<string>, fin: Fechas, inicio: Fechas,
                                  papeles: Option<string>, referencia: Option<string>, observaciones: Option<string>,
                                  estados: set<nat>, ahora: int)
    returns (error: Option<ErrorTiempos>)
    modifies r
    ensures var v := ValidarPapelesEntrada(estado, fin, inicio, papeles, referencia, estados);
            v.Err? || SinCambios(old(r.datos), v.value, observaciones) ==>
              error == (if v.Err? then Some(v.error) else None) && r.datos == old(r.datos) && r.enBase == old(r.enBase)
    ensures var v := ValidarPapelesEntrada(estado, fin, inicio, papeles, referencia, estados);
            v.Ok? && !SinCambios(old(r.datos), v.value, observaciones) ==>
              var d := PapelesAsignados(old(r.datos), v.value, observaciones);
              error == ValidarPapeles(d) &&
              (error.Some? ==> r.datos == d && r.enBase == old(r.enBase)) &&
              (error.None? ==> r.datos == d.(actualizado := ahora) && r.enBase == Some(r.datos))
    ensures ValidarPapelesEntrada(estado, fin, inicio, papeles, referencia, estados).Ok? ==> error == None
  {
    var v := ValidarPapelesEntrada(estado, fin, inicio, papeles, referencia, estados);
    if v.Err? {
      return Some(v.error);
    }
    var c := v.value;
    if Some(c.referencia) == r.datos.referencia && c.papeles == r.datos.papeles && c.inicio == r.datos.inicio
       && c.fin == r.datos.fin && c.estado == r.datos.estado && observaciones == r.datos.observaciones {
      return None;
    }
    r.datos := r.datos.(referencia := Some(c.referencia));
    r.datos := r.datos.(papeles := c.papeles);
    r.datos := r.datos.(inicio := c.inicio);
    r.datos := r.datos.(fin := c.fin);
    r.datos := r.datos.(estado := c.estado);
    r.datos := r.datos.(observaciones := if Vacio(observaciones) then None else observaciones);
    error := r.Save(ahora);
  }

  /** A reported start-after-end comes only from dates that really are in
      that order, and only "%Y-%m-%d" dates get past the conversion. */
  lemma ValidarPapelesFechas(estado: Option<string>, fin: Fechas, inicio: Fechas, papeles: Option<string>,
                             referencia: Option<string>, estados: set<nat>)
    ensures var r := ValidarPapelesEntrada(estado, fin, inicio, papeles, referencia, estados);
            r.Ok? ==> inicio.Dia? && fin.Dia? && Posterior(fin.fecha, inicio.fecha)
    ensures var r := ValidarPapelesEntrada(estado, fin, inicio, papeles, referencia, estados);
            r == Err(StartDateAfterEndDateError) ==> inicio.Dia? && fin.Dia? && !Posterior(fin.fecha, inicio.fecha)
  {
  }

  /** An update whose values and observation equal the stored ones, once
      the reference is set, leaves the object exactly as it was. */
  lemma SinCambiosEsIdentidad(d: Papeles, c: CambioPapeles, observaciones: Option<string>)
    requires SinCambios(d, c, observaciones) && !Vacio(observaciones)
    ensures PapelesAsignados(d, c, observaciones) == d
  {
  }

  // ------------------------------------------------------------ update_activity

  /** The values `update_activity` may assign. */
  datatype CambioActividad = CambioActividad(inicio: Instante, fin: Instante, nombre: string, nombramiento: string, estado: nat)

  /** The checks of `update_activity`, in order, with the status lookup in
      `estados`. */
  function ValidarActividadEntrada(fin: Fechas, inicio: Fechas, nombre: Option<string>, nombramiento: Option<string>,
                                   estado: Option<string>, estados: set<nat>): (r: Result<CambioActividad, ErrorTiempos>)
    ensures r.Ok? ==> InstanteValido(r.value.inicio) && InstanteValido(r.value.fin) && !NoAntes(r.value.inicio, r.value.fin)
  {
    if fin.SinFecha? then Err(InvalidEndDateError)
    else if !IsValidDate(fin) then Err(InvalidEndDateError)
    else if inicio.SinFecha? then Err(InvalidStartDateError)
    else if !IsValidDate(inicio) then Err(InvalidStartDateError)
    else if Vacio(nombre) then Err(NullNameError)
    else if Vacio(nombramiento) then Err(NullAppointmentNumberError)
    else if Vacio(estado) then Err(InvalidCurrentStatusError)
    else if !IsDigits(estado.value) then Err(InvalidCurrentStatusError)
    else if Valor(estado) !in estados then Err(UserUnauthorized)
    else if ConvertDate(inicio).Err? then Err(ConvertDate(inicio).error)
    else if ConvertDate(fin).Err? then Err(ConvertDate(fin).error)
    else if NoAntes(ConvertDate(inicio).value, ConvertDate(fin).value) then Err(StartDateAfterEndDateError)
    else Ok(CambioActividad(ConvertDate(inicio).value, ConvertDate(fin).value, nombre.value, nombramiento.value, Valor(estado)))
  }

  /** Some field differs from the value the update brings; an absent
      observation is no change. */
  predicate HayCambio(d: Actividad, c: CambioActividad, observaciones: Option<string>) {
    d.nombre != c.nombre || d.nombramiento != c.nombramiento || d.inicio != c.inicio || d.fin != c.fin ||
    d.estado != c.estado || (observaciones.Some? && d.observaciones != observaciones)
  }

  /** The activity with every differing field replaced. */
  function ActividadActualizada(d: Actividad, c: CambioActividad, observaciones: Option<string>): Actividad {
    d.(nombre := c.nombre, nombramiento := c.nombramiento, inicio := c.inicio, fin := c.fin, estado := c.estado,
       observaciones := if observaciones.Some? then observaciones else d.observaciones)
  }

  /** `update_activity(...)`: after the checks, each differing field is
      assigned, and the activity is saved only when one was. */
  method UpdateActivity(a: Activity, fin: Fechas, inicio: Fechas, nombre: Option<string>, nombramiento: Option<string>,
                        estado: Option<string>, observaciones: Option<string>, estados: set<nat>)
    returns (error: Option<ErrorTiempos>)
    modifies a, a.tabla
    ensures var v := ValidarActividadEntrada(fin, inicio, nombre, nombramiento, estado, estados);
            v.Err? || !HayCambio(old(a.datos), v.value, observaciones) ==>
              error == (if v.Err? then Some(v.error) else None) &&
              a.datos == old(a.datos) && a.enBase == old(a.enBase) && a.tabla.filas == old(a.tabla.filas)
    ensures var v := ValidarActividadEntrada(fin, inicio, nombre, nombramiento, estado, estados);
            v.Ok? && HayCambio(old(a.datos), v.value, observaciones) ==>
              var d := ActividadActualizada(old(a.datos), v.value, observaciones);
              error == None && a.datos == d.(referencia := ReferenciaFinal(d.referencia, d.auditoria)) &&
              a.enBase == Some(a.datos) && a.tabla.filas == Sincronizadas(old(a.tabla.filas), a.datos)
  {
    var v := ValidarActividadEntrada(fin, inicio, nombre, nombramiento, estado, estados);
    if v.Err? {
      return Some(v.error);
    }
    var c := v.value;
    var actualizado := false;
    if a.datos.nombre != c.nombre {
      a.datos := a.datos.(nombre := c.nombre);
      actualizado := true;
    }
    if a.datos.nombramiento != c.nombramiento {
      a.datos := a.datos.(nombramiento := c.nombramiento);
      actualizado := true;
    }
    if a.datos.inicio != c.inicio {
      a.datos := a.datos.(inicio := c.inicio);
      actualizado := true;
    }
    if a.datos.fin != c.fin {
      a.datos := a.datos.(fin := c.fin);
      actualizado := true;
    }
    if a.datos.estado != c.estado {
      a.datos := a.datos.(estado := c.estado);
      actualizado := true;
    }
    if observaciones.Some? && a.datos.observaciones != observaciones {
      a.datos := a.datos.(observaciones := observaciones);
      actualizado := true;
    }
    assert a.datos == ActividadActualizada(old(a.datos), c, observaciones);
    assert actualizado == HayCambio(old(a.datos), c, observaciones);
    error := None;
    if actualizado {
      error := a.Save();
    }
  }

  /** The activity is saved exactly when the update changes it, and an
      absent observation never replaces the stored one. */
  lemma HayCambioEs(d: Actividad, c: CambioActividad, observaciones: Option<string>)
    ensures HayCambio(d, c, observaciones) <==> ActividadActualizada(d, c, observaciones) != d
    ensures observaciones.None? ==> ActividadActualizada(d, c, observaciones).observaciones == d.observaciones
  {
  }

  // ------------------------------------------------------------ update_activity_total_worked_days

  /** The day-count test of `update_activity_total_worked_days` as written:
      below 0 and above 31 at once. */
  predicate FueraDeRangoTalCual(n: int) {
    n < 0 && n > 31
  }

  /** The test as intended: below 0 or above 31. */
  predicate FueraDeRango(n: int) {
    n < 0 || n > 31
  }

  /** As written the test never holds: 32 days pass it. */
  lemma FueraDeRangoTalCualNunca(n: int)
    ensures !FueraDeRangoTalCual(n)
    ensures FueraDeRango(32) && !FueraDeRangoTalCual(32)
  {
  }

  lemma MesEnRango(a: Actividad, m: int)
    requires m in Meses(a)
    ensures 1 <= m <= 12
  {
    var k :| 0 <= k < |Meses(a)| && Meses(a)[k] == m;
    assert m == MesDe(IndiceDe(a.inicio) + k);
  }

  /** The checks of `update_activity_total_worked_days`, in order, with the
      day-count test as intended; on success the month, the year and the
      number of days. */
  function ValidarTotalDiasEntrada(a: Actividad, mes: Option<string>, anio: Option<string>, total: string): (r: Result<(int, int, nat), ErrorTiempos>)
    ensures r.Ok? ==> 1 <= r.value.0 <= 12 && r.value.0 in Meses(a) && r.value.1 in Anios(a)
    ensures r.Ok? ==> r.value.2 <= 31 && r.value.2 <= DiasDelMes(r.value.1, r.value.0)
  {
    if Vacio(mes) then Err(InvalidMonthError)
    else if Vacio(anio) then Err(InvalidYearError)
    else if !IsDigits(mes.value) then Err(InvalidMonthError)
    else if !IsDigits(anio.value) then Err(InvalidYearError)
    else if Valor(mes) !in Meses(a) then Err(InvalidMonthError)
    else if Valor(anio) !in Anios(a) then Err(InvalidYearError)
    else if !IsDigits(total) then Err(InvalidTotalDaysError)
    else if FueraDeRango(DigitsValue(total)) then Err(InvalidTotalDaysError)
    else
      MesEnRango(a, Valor(mes));
      if DigitsValue(total) > DiasDelMes(Valor(anio), Valor(mes)) then Err(InvalidTotalDaysError)
      else Ok((Valor(mes), Valor(anio), DigitsValue(total)))
  }

  /** The same checks with the day-range test as written, which never
      holds. */
  function ValidarTotalDiasTalCual(a: Actividad, mes: Option<string>, anio: Option<string>, total: string): Result<(int, int, nat), ErrorTiempos>
  {
    if Vacio(mes) then Err(InvalidMonthError)
    else if Vacio(anio) then Err(InvalidYearError)
    else if !IsDigits(mes.value) then Err(InvalidMonthError)
    else if !IsDigits(anio.value) then Err(InvalidYearError)
    else if Valor(mes) !in Meses(a) then Err(InvalidMonthError)
    else if Valor(anio) !in Anios(a) then Err(InvalidYearError)
    else if !IsDigits(total) then Err(InvalidTotalDaysError)
    else if FueraDeRangoTalCual(DigitsValue(total)) then Err(InvalidTotalDaysError)
    else
      MesEnRango(a, Valor(mes));
      if DigitsValue(total) > DiasDelMes(Valor(anio), Valor(mes)) then Err(InvalidTotalDaysError)
      else Ok((Valor(mes), Valor(anio), DigitsValue(total)))
  }

  /** The broken day-range test changes no outcome: every count it lets
      through above 31 is refused by the month-length test, with the same
      error. */
  lemma TotalDiasMismoResultado(a: Actividad, mes: Option<string>, anio: Option<string>, total: string)
    ensures ValidarTotalDiasTalCual(a, mes, anio, total) == ValidarTotalDiasEntrada(a, mes, anio, total)
  {
    FueraDeRangoTalCualNunca(if IsDigits(total) then DigitsValue(total) else 0);
  }

  /** `.filter(month, year, activity).first()`: the first row of that
      activity, month and year. */
  function PrimeraFila(filas: seq<FilaMes>, actividad: nat, mes: int, anio: int): (r: Option<nat>)
    ensures r.Some? ==> r.value < |filas| && filas[r.value].actividad == actividad &&
                        filas[r.value].mes == mes && filas[r.value].anio == anio
    ensures r.None? <==> !Existe(filas, actividad, mes, anio)
  {
    if filas == [] then None
    else if filas[0].actividad == actividad && filas[0].mes == mes && filas[0].anio == anio then Some(0)
    else
      var r := PrimeraFila(filas[1..], actividad, mes, anio);
      if r.None? then
        assert !Existe(filas, actividad, mes, anio) by {
          forall j | 0 < j < |filas| ensures !(filas[j].actividad == actividad && filas[j].mes == mes && filas[j].anio == anio) {
            assert filas[j] == filas[1..][j - 1];
          }
        }
        None
      else Some(r.value + 1)
  }

  /** `update_activity_total_worked_days(...)`: nothing is written for zero
      days of a month without a row; a month without a row gets a new one;
      a row whose total differs is updated through its save. */
  method UpdateActivityTotalWorkedDays(a: Activity, mes: Option<string>, anio: Option<string>, total: string)
    returns (error: Option<ErrorTiempos>)
    requires InstanteValido(a.datos.inicio) && InstanteValido(a.datos.fin)
    modifies a.tabla
    ensures var v := ValidarTotalDiasEntrada(a.datos, mes, anio, total);
            v.Err? ==> error == Some(v.error) && a.tabla.filas == old(a.tabla.filas)
    ensures var v := ValidarTotalDiasEntrada(a.datos, mes, anio, total);
            v.Ok? ==>
              var f0 := old(a.tabla.filas);
              var j := PrimeraFila(f0, a.datos.id, v.value.0, v.value.1);
              var dias := v.value.2 * 86400;
              (j.None? && v.value.2 == 0 ==> error == None && a.tabla.filas == f0) &&
              (j.None? && v.value.2 != 0 ==>
                 error == None && a.tabla.filas == f0 + [FilaMes(a.datos.id, v.value.0, v.value.1, dias)]) &&
              (j.Some? && f0[j.value].dias == dias ==> error == None && a.tabla.filas == f0) &&
              (j.Some? && f0[j.value].dias != dias ==>
                 var r := GuardarFila(f0, j.value, f0[j.value].(dias := dias));
                 (r.Ok? ==> error == None && a.tabla.filas == r.value) &&
                 (r.Err? ==> error == Some(r.error) && a.tabla.filas == f0))
  {
    var v := ValidarTotalDiasEntrada(a.datos, mes, anio, total);
    if v.Err? {
      return Some(v.error);
    }
    var (m, y, n) := v.value;
    var j := PrimeraFila(a.tabla.filas, a.datos.id, m, y);
    DiasEnRango(n);
    var dias := FormatDurationField(n, "days").value.value;
    if j.None? && n == 0 {
      return None;
    }
    if j.None? {
      var nueva := FilaMes(a.datos.id, m, y, dias);
      GuardarFilaNueva(a.tabla.filas, nueva);
      error := a.tabla.Save(|a.tabla.filas|, nueva);
      return;
    }
    error := None;
    if a.tabla.filas[j.value].dias != dias {
      error := a.tabla.Save(j.value, a.tabla.filas[j.value].(dias := dias));
    }
  }

  /** With one row per activity, month and year, the update of an existing
      row is never refused, so only the checks can fail. */
  lemma ActualizarFilaUnica(f0: seq<FilaMes>, j: nat, dias: int)
    requires ClavesUnicas(f0) && j < |f0| && 1 <= f0[j].mes <= 12
    ensures GuardarFila(f0, j, f0[j].(dias := dias)) == Ok(f0[j := f0[j].(dias := dias)])
  {
    var f := f0[j].(dias := dias);
    assert !OtraIgual(f0, j, f) by {
      forall i | 0 <= i < |f0| && i != j
        ensures !(f0[i].actividad == f.actividad && f0[i].mes == f.mes && f0[i].anio == f.anio)
      {
        if i < j {
          assert !(f0[i].actividad == f0[j].actividad && f0[i].mes == f0[j].mes && f0[i].anio == f0[j].anio);
        } else {
          assert !(f0[j].actividad == f0[i].actividad && f0[j].mes == f0[i].mes && f0[j].anio == f0[i].anio);
        }
      }
    }
  }

  // ------------------------------------------------------------ time line

  /** The position of a status in the fixed chain; the four closing
      statuses share the last place. */
  function Rango(s: string): Option<nat> {
    if s == "inicializado" then Some(0)
    else if s == "en proceso" then Some(1)
    else if s == "en revisión" then Some(2)
    else if s == "aprobado" then Some(3)
    else if s == "terminado" then Some(4)
    else if s == "en espera" then Some(5)
    else if s == "rechazado" || s == "completado" || s == "archivado" || s == "cancelado" then Some(6)
    else None
  }

  /** The "value" of status `nombre` when the current status is `s`, as
      the nested conditional computes it. */
  function ValorLinea(s: string, nombre: string): bool {
    if s == nombre then true
    else if s == "en proceso" && nombre == "inicializado" then true
    else if s == "en revisión" && nombre in ["inicializado", "en proceso"] then true
    else if s == "aprobado" && nombre in ["inicializado", "en proceso", "en revisión"] then true
    else if s == "terminado" && nombre in ["inicializado", "en proceso", "en revisión", "aprobado"] then true
    else if s == "en espera" && nombre in ["inicializado", "en proceso", "en revisión", "aprobado", "terminado"] then true
    else if s == "rechazado" && nombre in ["inicializado", "en proceso", "en revisión", "aprobado", "terminado", "en espera"] then true
    else if s == "completado" && nombre in ["inicializado", "en proceso", "en revisión", "aprobado", "terminado", "en espera"] then true
    else if s == "archivado" && nombre in ["inicializado", "en proceso", "en revisión", "aprobado", "terminado", "en espera"] then true
    else if s == "cancelado" && nombre in ["inicializado", "en proceso", "en revisión", "aprobado", "terminado", "en espera"] then true
    else false
  }

  /** `get_working_papers_time_line_dic(s)` over the statuses in table
      order: each status name with its value. */
  function GetWorkingPapersTimeLineDic(s: string, estados: seq<string>): (r: seq<(string, bool)>)
    ensures |r| == |estados|
    ensures forall k :: 0 <= k < |r| ==> r[k].0 == estados[k]
  {
    seq(|estados|, k requires 0 <= k < |estados| => (estados[k], ValorLinea(s, estados[k])))
  }

  /** A status is marked exactly when it is the current one or comes
      strictly earlier in the chain. */
  lemma ValorLineaEs(s: string, nombre: string)
    ensures ValorLinea(s, nombre) <==>
              s == nombre || (Rango(nombre).Some? && Rango(s).Some? && Rango(nombre).value < Rango(s).value)
  {
  }

  /** The marked statuses form a prefix of the chain: whatever precedes a
      marked status is marked too. */
  lemma LineaPrefijo(s: string, a: string, b: string)
    requires ValorLinea(s, b) && Rango(a).Some? && Rango(b).Some? && Rango(a).value < Rango(b).value
    ensures ValorLinea(s, a)
  {
    ValorLineaEs(s, a);
    ValorLineaEs(s, b);
  }
}
