/** The user model's own rules (users/models.py): the default role given on
    save, the auditors attached to a group-mode administrator, and the
    deactivation and reactivation that cascade to them. The users table is
    a sequence of rows; a user is a row index. Times are whole seconds. */
module Usuarios {
  import opened Wrappers

  datatype Usuario = Usuario(
    id: nat,
    rol: Option<string>,
    modalidad: string,
    plan: string,
    administrador: Option<nat>,
    eliminado: bool,
    eliminadoEn: Option<int>,
    alta: int)

  /** What `User.save` adds: a user with no role gets "auditor". */
  function ConRol(u: Usuario): (r: Usuario)
    ensures r.rol.Some? && (u.rol.Some? ==> r.rol == u.rol) && (u.rol.None? ==> r.rol == Some("auditor"))
    ensures r.(rol := u.rol) == u
  {
    if u.rol.None? then u.(rol := Some("auditor")) else u
  }

  /** `is_admin()` */
  predicate EsAdmin(u: Usuario) {
    u.rol == Some("audit_manager")
  }

  /** A group-mode administrator: the one whose (de)activation cascades. */
  predicate Cascada(u: Usuario) {
    EsAdmin(u) && u.modalidad == "G"
  }

  /** The rows, among the first `n`, whose administrator is `id`, in table
      order. */
  function AuditoresHasta(f: seq<Usuario>, id: nat, n: nat): seq<nat>
    requires n <= |f|
  {
    if n == 0 then []
    else AuditoresHasta(f, id, n - 1) + (if f[n - 1].administrador == Some(id) then [n - 1] else [])
  }

  /** The list holds, in increasing order, exactly the rows attached to
      `id`. */
  lemma {:induction false} AuditoresHastaEs(f: seq<Usuario>, id: nat, n: nat)
    requires n <= |f|
    ensures var r := AuditoresHasta(f, id, n);
            (forall a :: 0 <= a < |r| ==> r[a] < n) &&
            (forall a, b :: 0 <= a < b < |r| ==> r[a] < r[b]) &&
            (forall j :: 0 <= j < n ==> (j in r <==> f[j].administrador == Some(id)))
  {
    if n > 0 {
      AuditoresHastaEs(f, id, n - 1);
    }
  }

  /** `get_auditores()`: nobody for a non-administrator, else the rows
      attached to it. */
  function Auditores(f: seq<Usuario>, i: nat): (r: seq<nat>)
    requires i < |f|
  {
    if !EsAdmin(f[i]) then [] else AuditoresHasta(f, f[i].id, |f|)
  }

  function DeBaja(u: Usuario, fecha: int): Usuario {
    ConRol(u.(eliminado := true, eliminadoEn := Some(fecha)))
  }

  function DeAlta(u: Usuario): Usuario {
    ConRol(u.(eliminado := false, eliminadoEn := None))
  }

  /** The table after `deactivate_user(fecha)` on row `i`. */
  function Desactivado(f: seq<Usuario>, i: nat, fecha: int): (r: seq<Usuario>)
    requires i < |f|
    ensures |r| == |f|
  {
    seq(|f|, j requires 0 <= j < |f| =>
      if j == i then DeBaja(f[i], fecha)
      else if Cascada(f[i]) && f[j].administrador == Some(f[i].id) && !f[j].eliminado then DeBaja(f[j], fecha)
      else f[j])
  }

  /** The table after `reactivate_user()` on row `i`. */
  function Reactivado(f: seq<Usuario>, i: nat): (r: seq<Usuario>)
    requires i < |f|
    ensures |r| == |f|
  {
    seq(|f|, j requires 0 <= j < |f| =>
      if j == i then DeAlta(f[i])
      else if Cascada(f[i]) && f[j].administrador == Some(f[i].id) && f[j].eliminado then DeAlta(f[j])
      else f[j])
  }

  /** How many of the first `n` rows other than `i` are deleted auditors
      of `i`. */
  function EliminadosHasta(f: seq<Usuario>, i: nat, n: nat): nat
    requires i < |f| && n <= |f|
  {
    if n == 0 then 0
    else EliminadosHasta(f, i, n - 1) +
         (if n - 1 != i && f[n - 1].administrador == Some(f[i].id) && f[n - 1].eliminado then 1 else 0)
  }

  /** What `reactivate_user()` returns. */
  function Reactivados(f: seq<Usuario>, i: nat): nat
    requires i < |f|
  {
    if Cascada(f[i]) then EliminadosHasta(f, i, |f|) else 0
  }

  /** Deleted rows among `aud[..k]`. */
  function Contar(f: seq<Usuario>, aud: seq<nat>, k: nat): nat
    requires k <= |aud|
  {
    if k == 0 then 0 else Contar(f, aud, k - 1) + (if aud[k - 1] < |f| && f[aud[k - 1]].eliminado then 1 else 0)
  }

  class Tabla {
    var filas: seq<Usuario>

    constructor(filas0: seq<Usuario>)
      ensures filas == filas0
    {
      filas := filas0;
    }

    /** `User.save()` of row `i`. */
    method Save(i: nat)
      requires i < |filas|
      modifies this
      ensures filas == old(filas)[i := ConRol(old(filas)[i])]
    {
      if filas[i].rol.None? {
        filas := filas[i := filas[i].(rol := Some("auditor"))];
      }
    }

    /** `deactivate_user(deactivation_date)`; `ahora` is the clock's reading
        used when no date is given. */
    method DeactivateUser(i: nat, fechaBaja: Option<int>, ahora: int) returns (r: bool)
      requires i < |filas|
      modifies this
      ensures r
      ensures filas == Desactivado(old(filas), i, fechaBaja.GetOr(ahora))
    {
      var fecha := if fechaBaja.None? then ahora else fechaBaja.value;
      ghost var f0 := filas;
      filas := filas[i := filas[i].(eliminado := true, eliminadoEn := Some(fecha))];
      Save(i);
      assert filas == f0[i := DeBaja(f0[i], fecha)];
      if EsAdmin(filas[i]) && filas[i].modalidad == "G" {
        var aud := Auditores(filas, i);
        AuditoresHastaEs(filas, filas[i].id, |filas|);
        filas := BajaEnCascada(filas, aud, fecha);
      }
      DesactivadoPaso(f0, i, fecha, filas);
      r := true;
    }

    /** `reactivate_user()` */
    method ReactivateUser(i: nat) returns (n: nat)
      requires i < |filas|
      modifies this
      ensures filas == Reactivado(old(filas), i)
      ensures n == Reactivados(old(filas), i)
    {
      ghost var f0 := filas;
      filas := filas[i := filas[i].(eliminado := false, eliminadoEn := None)];
      Save(i);
      n := 0;
      if EsAdmin(filas[i]) && filas[i].modalidad == "G" {
        var aud := Auditores(filas, i);
        AuditoresHastaEs(filas, filas[i].id, |filas|);
        ContarEliminados(f0, i, filas, aud);
        filas, n := AltaEnCascada(filas, aud);
      }
      ReactivadoPaso(f0, i, filas);
    }
  }

  /** A list of distinct rows, in increasing order. */
  predicate Filas(f: seq<Usuario>, aud: seq<nat>) {
    (forall a :: 0 <= a < |aud| ==> aud[a] < |f|) &&
    (forall a, b :: 0 <= a < b < |aud| ==> aud[a] < aud[b])
  }

  /** The loop of `deactivate_user` over the auditors: each one not yet
      deleted is deleted on `fecha` and saved. */
  method BajaEnCascada(f: seq<Usuario>, aud: seq<nat>, fecha: int) returns (t: seq<Usuario>)
    requires Filas(f, aud)
    ensures |t| == |f|
    ensures forall j :: 0 <= j < |f| ==> t[j] == if j in aud && !f[j].eliminado then DeBaja(f[j], fecha) else f[j]
  {
    t := f;
    for k := 0 to |aud|
      invariant |t| == |f|
      invariant forall j :: 0 <= j < |t| ==> t[j] == if j in aud[..k] && !f[j].eliminado then DeBaja(f[j], fecha) else f[j]
    {
      var j := aud[k];
      assert j !in aud[..k];
      if !t[j].eliminado {
        t := t[j := DeBaja(t[j], fecha)];
      }
      assert aud[..k + 1] == aud[..k] + [j];
    }
    assert aud[..|aud|] == aud;
  }

  /** The loop of `reactivate_user` over the auditors: each deleted one is
      restored, saved and counted. */
  method AltaEnCascada(f: seq<Usuario>, aud: seq<nat>) returns (t: seq<Usuario>, n: nat)
    requires Filas(f, aud)
    ensures |t| == |f| && n == Contar(f, aud, |aud|)
    ensures forall j :: 0 <= j < |f| ==> t[j] == if j in aud && f[j].eliminado then DeAlta(f[j]) else f[j]
  {
    t, n := f, 0;
    for k := 0 to |aud|
      invariant |t| == |f|
      invariant n == Contar(f, aud, k)
      invariant forall j :: 0 <= j < |t| ==> t[j] == if j in aud[..k] && f[j].eliminado then DeAlta(f[j]) else f[j]
    {
      var j := aud[k];
      assert j !in aud[..k];
      assert t[j] == f[j];
      if t[j].eliminado {
        t := t[j := DeAlta(t[j])];
        n := n + 1;
      }
      assert aud[..k + 1] == aud[..k] + [j];
    }
    assert aud[..|aud|] == aud;
  }

  /** The loop's outcome is the closed form `Desactivado`. */
  lemma DesactivadoPaso(f0: seq<Usuario>, i: nat, fecha: int, f: seq<Usuario>)
    requires i < |f0|
    requires var base := f0[i := DeBaja(f0[i], fecha)];
             if Cascada(base[i]) then
               var aud := Auditores(base, i);
               |f| == |base| &&
               forall j :: 0 <= j < |f| ==> f[j] == if j in aud && !base[j].eliminado then DeBaja(base[j], fecha) else base[j]
             else f == base
    ensures f == Desactivado(f0, i, fecha)
  {
    var base := f0[i := DeBaja(f0[i], fecha)];
    assert Cascada(base[i]) <==> Cascada(f0[i]);
    forall j | 0 <= j < |f0| ensures f[j] == Desactivado(f0, i, fecha)[j] {
      if Cascada(f0[i]) {
        AuditoresHastaEs(base, base[i].id, |base|);
        assert j in Auditores(base, i) <==> base[j].administrador == Some(f0[i].id);
      }
    }
  }

  lemma ReactivadoPaso(f0: seq<Usuario>, i: nat, f: seq<Usuario>)
    requires i < |f0|
    requires var base := f0[i := DeAlta(f0[i])];
             if Cascada(base[i]) then
               var aud := Auditores(base, i);
               |f| == |base| &&
               forall j :: 0 <= j < |f| ==> f[j] == if j in aud && base[j].eliminado then DeAlta(base[j]) else base[j]
             else f == base
    ensures f == Reactivado(f0, i)
  {
    var base := f0[i := DeAlta(f0[i])];
    assert Cascada(base[i]) <==> Cascada(f0[i]);
    forall j | 0 <= j < |f0| ensures f[j] == Reactivado(f0, i)[j] {
      if Cascada(f0[i]) {
        AuditoresHastaEs(base, base[i].id, |base|);
        assert j in Auditores(base, i) <==> base[j].administrador == Some(f0[i].id);
      }
    }
  }

  /** Deleted rows among the first `n` attached to `id`. */
  function CuentaHasta(f: seq<Usuario>, id: nat, n: nat): nat
    requires n <= |f|
  {
    if n == 0 then 0
    else CuentaHasta(f, id, n - 1) + (if f[n - 1].administrador == Some(id) && f[n - 1].eliminado then 1 else 0)
  }

  lemma {:induction false} ContarHasta(f: seq<Usuario>, id: nat, n: nat)
    requires n <= |f|
    ensures Contar(f, AuditoresHasta(f, id, n), |AuditoresHasta(f, id, n)|) == CuentaHasta(f, id, n)
  {
    if n > 0 {
      var a := AuditoresHasta(f, id, n - 1);
      ContarHasta(f, id, n - 1);
      if f[n - 1].administrador == Some(id) {
        var b := a + [n - 1];
        assert AuditoresHasta(f, id, n) == b;
        assert b[..|a|] == a;
        ContarPrefijo(f, b, |a|);
      } else {
        assert AuditoresHasta(f, id, n) == a;
      }
    }
  }

  lemma {:induction false} CuentaEliminados(f0: seq<Usuario>, i: nat, n: nat)
    requires i < |f0| && n <= |f0|
    ensures CuentaHasta(f0[i := DeAlta(f0[i])], f0[i].id, n) == EliminadosHasta(f0, i, n)
  {
    if n > 0 {
      CuentaEliminados(f0, i, n - 1);
    }
  }

  lemma {:induction false} ContarPrefijo(f: seq<Usuario>, aud: seq<nat>, k: nat)
    requires k <= |aud|
    ensures Contar(f, aud, k) == Contar(f, aud[..k], k)
    decreases k
  {
    if k > 0 {
      ContarPrefijo(f, aud, k - 1);
      ContarPrefijo(f, aud[..k], k - 1);
      assert aud[..k][..k - 1] == aud[..k - 1];
    }
  }

  /** The count of the loop is `EliminadosHasta`. */
  lemma ContarEliminados(f0: seq<Usuario>, i: nat, base: seq<Usuario>, aud: seq<nat>)
    requires i < |f0| && base == f0[i := DeAlta(f0[i])]
    requires EsAdmin(base[i]) && aud == Auditores(base, i)
    ensures Contar(base, aud, |aud|) == EliminadosHasta(f0, i, |f0|)
  {
    ContarHasta(base, base[i].id, |base|);
    CuentaEliminados(f0, i, |f0|);
  }

  // ------------------------------------------------------------ properties

  /** Saving twice is saving once, and a saved user always has a role. */
  lemma ConRolIdempotente(u: Usuario)
    ensures ConRol(ConRol(u)) == ConRol(u) && ConRol(u).rol.Some?
  {
  }

  /** A user that is not an administrator has no auditors. */
  lemma SinAuditores(f: seq<Usuario>, i: nat)
    requires i < |f| && !EsAdmin(f[i])
    ensures Auditores(f, i) == []
  {
  }

  /** The auditors of an administrator are exactly the rows attached to it,
      each once. */
  lemma AuditoresEs(f: seq<Usuario>, i: nat, j: nat)
    requires i < |f| && j < |f| && EsAdmin(f[i])
    ensures j in Auditores(f, i) <==> f[j].administrador == Some(f[i].id)
    ensures forall a, b :: 0 <= a < b < |Auditores(f, i)| ==> Auditores(f, i)[a] != Auditores(f, i)[b]
  {
    AuditoresHastaEs(f, f[i].id, |f|);
  }

  /** Deactivation marks the user; for a group-mode administrator it also
      marks every attached auditor not yet deleted, with the same date, and
      keeps the date of those already deleted; nothing else changes. */
  lemma DesactivadoEs(f: seq<Usuario>, i: nat, fecha: int, j: nat)
    requires i < |f| && j < |f|
    ensures var g := Desactivado(f, i, fecha);
            (j == i ==> g[j].eliminado && g[j].eliminadoEn == Some(fecha)) &&
            (j != i && Cascada(f[i]) && f[j].administrador == Some(f[i].id) ==>
               g[j].eliminado && g[j].eliminadoEn == (if f[j].eliminado then f[j].eliminadoEn else Some(fecha))) &&
            (j != i && !(Cascada(f[i]) && f[j].administrador == Some(f[i].id)) ==> g[j] == f[j])
  {
  }

  /** Reactivation clears the user; for a group-mode administrator it also
      clears every attached auditor; nothing else changes. */
  lemma ReactivadoEs(f: seq<Usuario>, i: nat, j: nat)
    requires i < |f| && j < |f|
    ensures var g := Reactivado(f, i);
            (j == i || (Cascada(f[i]) && f[j].administrador == Some(f[i].id)) ==>
               !g[j].eliminado && (f[j].eliminado || j == i ==> g[j].eliminadoEn == None)) &&
            (j != i && !(Cascada(f[i]) && f[j].administrador == Some(f[i].id)) ==> g[j] == f[j])
  {
  }

  /** How many of the first `n` rows other than `i` are attached to `i`. */
  function AdjuntosHasta(f: seq<Usuario>, i: nat, n: nat): nat
    requires i < |f| && n <= |f|
  {
    if n == 0 then 0
    else AdjuntosHasta(f, i, n - 1) + (if n - 1 != i && f[n - 1].administrador == Some(f[i].id) then 1 else 0)
  }

  lemma {:induction false} EliminadosTodos(f: seq<Usuario>, i: nat, n: nat)
    requires i < |f| && n <= |f|
    requires forall j :: 0 <= j < |f| && j != i && f[j].administrador == Some(f[i].id) ==> f[j].eliminado
    ensures EliminadosHasta(f, i, n) == AdjuntosHasta(f, i, n)
  {
    if n > 0 {
      EliminadosTodos(f, i, n - 1);
    }
  }

  lemma {:induction false} AdjuntosIguales(f: seq<Usuario>, g: seq<Usuario>, i: nat, n: nat)
    requires i < |f| == |g| && n <= |f| && g[i].id == f[i].id
    requires forall j :: 0 <= j < |g| ==> g[j].administrador == f[j].administrador
    ensures AdjuntosHasta(g, i, n) == AdjuntosHasta(f, i, n)
  {
    if n > 0 {
      AdjuntosIguales(f, g, i, n - 1);
    }
  }

  /** Reactivating a group-mode administrator right after deactivating it
      reactivates every one of its auditors, and reports them all. */
  lemma ReactivarTrasDesactivar(f: seq<Usuario>, i: nat, fecha: int)
    requires i < |f| && Cascada(f[i])
    ensures var g := Desactivado(f, i, fecha);
            Reactivados(g, i) == AdjuntosHasta(f, i, |f|) &&
            forall j :: 0 <= j < |f| && (j == i || f[j].administrador == Some(f[i].id)) ==> !Reactivado(g, i)[j].eliminado
  {
    var g := Desactivado(f, i, fecha);
    assert Cascada(g[i]) && g[i].id == f[i].id;
    assert forall j :: 0 <= j < |g| ==> g[j].administrador == f[j].administrador;
    EliminadosTodos(g, i, |g|);
    AdjuntosIguales(f, g, i, |f|);
  }
}
