/** The two demo-user middlewares (users/middleware.py): the path allowlist
    that confines a demo user, and the periodic sweep that retires demo
    accounts older than 120 hours. Times are whole seconds. */
module MiddlewareDemo {
  import opened Wrappers
  import opened Text
  import opened Usuarios

  /** The exact paths a demo user may visit. */
  const RutasPermitidas: seq<string> := [
    "/dashboard/", "/logout/", "/user/", "/financiera/", "/auditorias/", "/interna/",
    "/archivo/", "/herramientas/", "/proyectos/", "/notificaciones/", "/api/notificaciones/"]

  /** The prefixes under which a demo user may visit any path. */
  const PrefijosPermitidos: seq<string> := [
    "/static/", "/media/", "/api/financiera/", "/api/auditorias/", "/api/interna/",
    "/api/archivo/", "/api/herramientas/", "/api/proyectos/"]

  /** What the access middleware sees of a request. */
  datatype Peticion = Peticion(autenticado: bool, rol: Option<string>, ruta: string)

  datatype Respuesta = Continuar | RedirigirDashboard

  predicate EsDemo(p: Peticion) {
    p.autenticado && p.rol == Some("demo")
  }

  /** `any(ruta.startswith(prefix) for prefix in prefijos)` */
  function AlgunPrefijo(ruta: string, prefijos: seq<string>): bool
    decreases |prefijos|
  {
    if prefijos == [] then false
    else StartsWith(ruta, prefijos[0]) || AlgunPrefijo(ruta, prefijos[1..])
  }

  /** `DemoUserAccessMiddleware.__call__`: a demo request outside the
      allowlist is sent to the dashboard; every other request goes on. */
  function DemoUserAccess(p: Peticion): Respuesta {
    if EsDemo(p) then
      var permitida := p.ruta in RutasPermitidas;
      var permitida := if !permitida then AlgunPrefijo(p.ruta, PrefijosPermitidos) else permitida;
      if !permitida then RedirigirDashboard else Continuar
    else Continuar
  }

  lemma {:induction false} AlgunPrefijoEs(ruta: string, prefijos: seq<string>)
    ensures AlgunPrefijo(ruta, prefijos) <==> exists k :: 0 <= k < |prefijos| && StartsWith(ruta, prefijos[k])
    decreases |prefijos|
  {
    if prefijos != [] {
      AlgunPrefijoEs(ruta, prefijos[1..]);
      if AlgunPrefijo(ruta, prefijos[1..]) {
        var k :| 0 <= k < |prefijos[1..]| && StartsWith(ruta, prefijos[1..][k]);
        assert StartsWith(ruta, prefijos[k + 1]);
      }
      forall k | 0 < k < |prefijos| && StartsWith(ruta, prefijos[k])
        ensures AlgunPrefijo(ruta, prefijos[1..])
      {
        assert prefijos[1..][k - 1] == prefijos[k];
      }
    }
  }

  /** A demo user goes on exactly when the path is one of the exact paths
      or starts with one of the prefixes; anyone else always goes on, and
      the only other outcome is the redirect to the dashboard. */
  lemma DemoUserAccessEs(p: Peticion)
    ensures !EsDemo(p) ==> DemoUserAccess(p) == Continuar
    ensures EsDemo(p) ==>
              (DemoUserAccess(p) == Continuar <==>
                 p.ruta in RutasPermitidas ||
                 exists k :: 0 <= k < |PrefijosPermitidos| && StartsWith(p.ruta, PrefijosPermitidos[k]))
    ensures DemoUserAccess(p) != Continuar ==> DemoUserAccess(p) == RedirigirDashboard
  {
    AlgunPrefijoEs(p.ruta, PrefijosPermitidos);
  }

  /** Anything under an allowed prefix is open to a demo user. */
  lemma BajoPrefijo(p: Peticion, k: nat, resto: string)
    requires k < |PrefijosPermitidos| && p.ruta == PrefijosPermitidos[k] + resto
    ensures DemoUserAccess(p) == Continuar
  {
    assert StartsWith(p.ruta, PrefijosPermitidos[k]);
    AlgunPrefijoEs(p.ruta, PrefijosPermitidos);
  }

  // ------------------------------------------------------------ expiry

  /** Demo accounts expire 120 hours after joining. */
  const Vigencia: int := 120 * 3600

  /** The sweep runs again only once more than an hour has passed. */
  const Intervalo: int := 3600

  /** A row the sweep at `ahora` retires: a not yet deleted DEMO-plan user
      who joined strictly before `ahora - Vigencia`. */
  predicate Expirado(u: Usuario, ahora: int) {
    u.plan == "DEMO" && !u.eliminado && u.alta < ahora - Vigencia
  }

  /** The users table after the sweep at `ahora`. Only the two fields the
      sweep saves change: the save names them, so the default role that
      `User.save` sets in memory is not written. */
  function Barrido(f: seq<Usuario>, ahora: int): (r: seq<Usuario>)
    ensures |r| == |f|
  {
    seq(|f|, j requires 0 <= j < |f| =>
      if Expirado(f[j], ahora) then f[j].(eliminado := true, eliminadoEn := Some(ahora)) else f[j])
  }

  /** `_check_expired_demo_users`: each expired row is retired in turn.
      The count it keeps only feeds the log. */
  method CheckExpiredDemoUsers(f: seq<Usuario>, ahora: int) returns (t: seq<Usuario>)
    ensures t == Barrido(f, ahora)
  {
    t := f;
    for j := 0 to |f|
      invariant |t| == |f|
      invariant forall i :: 0 <= i < |f| ==> t[i] == if i < j then Barrido(f, ahora)[i] else f[i]
    {
      if Expirado(f[j], ahora) {
        t := t[j := f[j].(eliminado := true, eliminadoEn := Some(ahora))];
      }
    }
  }

  /** `DemoUserExpirationMiddleware`: the users table it sweeps and the time
      of its last sweep. */
  class DemoUserExpiration {
    const tabla: Tabla
    var ultimaRevision: int

    /** The middleware sweeps once when it is built. */
    constructor(tabla0: Tabla, ahora: int)
      modifies tabla0
      ensures tabla == tabla0 && ultimaRevision == ahora
      ensures tabla.filas == Barrido(old(tabla0.filas), ahora)
    {
      tabla := tabla0;
      var f := CheckExpiredDemoUsers(tabla0.filas, ahora);
      tabla0.filas := f;
      ultimaRevision := ahora;
    }

    /** `__call__`: sweep and reset the clock only when more than an hour has
        passed since the last sweep. */
    method Call(ahora: int)
      modifies this, tabla
      ensures ahora - old(ultimaRevision) > Intervalo ==>
                tabla.filas == Barrido(old(tabla.filas), ahora) && ultimaRevision == ahora
      ensures ahora - old(ultimaRevision) <= Intervalo ==>
                tabla.filas == old(tabla.filas) && ultimaRevision == old(ultimaRevision)
    {
      if ahora - ultimaRevision > Intervalo {
        var f := CheckExpiredDemoUsers(tabla.filas, ahora);
        tabla.filas := f;
        ultimaRevision := ahora;
      }
    }
  }

  // ------------------------------------------------------------ properties

  /** The sweep retires exactly the expired rows, with the sweep's time,
      and leaves every other row alone. */
  lemma BarridoEs(f: seq<Usuario>, ahora: int, j: nat)
    requires j < |f|
    ensures Expirado(f[j], ahora) ==>
              Barrido(f, ahora)[j].eliminado && Barrido(f, ahora)[j].eliminadoEn == Some(ahora) &&
              Barrido(f, ahora)[j].(eliminado := f[j].eliminado, eliminadoEn := f[j].eliminadoEn) == f[j]
    ensures !Expirado(f[j], ahora) ==> Barrido(f, ahora)[j] == f[j]
  {
  }

  /** A second sweep at the same time finds nothing left to retire, and
      after any sweep no expired account remains. */
  lemma BarridoIdempotente(f: seq<Usuario>, ahora: int)
    ensures Barrido(Barrido(f, ahora), ahora) == Barrido(f, ahora)
    ensures forall j :: 0 <= j < |f| ==> !Expirado(Barrido(f, ahora)[j], ahora)
  {
  }

  /** A sweep never brings a deleted account back. */
  lemma BarridoConserva(f: seq<Usuario>, ahora: int, j: nat)
    requires j < |f| && f[j].eliminado
    ensures Barrido(f, ahora)[j] == f[j]
  {
  }
}
