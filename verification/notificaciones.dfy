/** A notification's delivery to one user (notifications/models.py,
    `NotificationStatus`): the rules its save enforces between the
    notifier, the recipient and the audit, and marking it read. */
module Notificaciones {
  import opened Wrappers

  /** A user as these rules see it: an id and a role name. */
  datatype Persona = Persona(id: nat, rol: string)

  /** An audit as these rules see it: the ids of its assigned users and the
      id of its manager. */
  datatype Auditoria = Auditoria(asignados: set<nat>, gerente: nat)

  datatype ErrorGuardado =
    | AuditNotAssignantToUser
    | AuditorInvalidNotifierError
    | SupervisorInvalidNotifierError

  /** What the database holds for a status row: read or not, and when. */
  datatype Fila = Fila(leida: bool, fechaLectura: Option<int>)

  /** The checks of `NotificationStatus.save`, in their order; `None` when
      the row may be written. */
  function ValidarGuardado(usuario: Persona, notificador: Persona, auditoria: Auditoria): Option<ErrorGuardado> {
    if (usuario.id !in auditoria.asignados && usuario.rol == "auditor")
       || (usuario.rol == "audit_manager" && usuario.id != auditoria.gerente) then
      Some(AuditNotAssignantToUser)
    else if notificador.rol == "auditor" && usuario.rol != "audit_manager" then
      Some(AuditorInvalidNotifierError)
    else if notificador.rol == "audit_manager" && usuario.rol != "auditor" then
      Some(SupervisorInvalidNotifierError)
    else None
  }

  class NotificationStatus {
    const usuario: Persona
    const notificador: Persona
    const auditoria: Auditoria
    var leida: bool
    var fechaLectura: Option<int>
    /** The row as last written, if it ever was. */
    var guardado: Option<Fila>

    constructor(usuario0: Persona, notificador0: Persona, auditoria0: Auditoria)
      ensures usuario == usuario0 && notificador == notificador0 && auditoria == auditoria0
      ensures !leida && fechaLectura == None && guardado == None
    {
      usuario, notificador, auditoria := usuario0, notificador0, auditoria0;
      leida, fechaLectura, guardado := false, None, None;
    }

    /** `save()`: the row is written only when every check passes; a
        rejected save leaves what is stored as it was. */
    method Save() returns (error: Option<ErrorGuardado>)
      modifies this
      ensures error == ValidarGuardado(usuario, notificador, auditoria)
      ensures leida == old(leida) && fechaLectura == old(fechaLectura)
      ensures error.None? ==> guardado == Some(Fila(leida, fechaLectura))
      ensures error.Some? ==> guardado == old(guardado)
    {
      if (usuario.id !in auditoria.asignados && usuario.rol == "auditor")
         || (usuario.rol == "audit_manager" && usuario.id != auditoria.gerente) {
        return Some(AuditNotAssignantToUser);
      }
      if notificador.rol == "auditor" && usuario.rol != "audit_manager" {
        return Some(AuditorInvalidNotifierError);
      } else if notificador.rol == "audit_manager" && usuario.rol != "auditor" {
        return Some(SupervisorInvalidNotifierError);
      }
      guardado := Some(Fila(leida, fechaLectura));
      error := None;
    }

    /** `read_notification()` at time `ahora`: the object is marked read
        whatever the save then decides. */
    method ReadNotification(ahora: int) returns (error: Option<ErrorGuardado>)
      modifies this
      ensures leida && fechaLectura == Some(ahora)
      ensures error == ValidarGuardado(usuario, notificador, auditoria)
      ensures error.None? ==> guardado == Some(Fila(true, Some(ahora)))
      ensures error.Some? ==> guardado == old(guardado)
    {
      leida := true;
      fechaLectura := Some(ahora);
      error := Save();
    }
  }

  // ------------------------------------------------------------ properties

  /** A status row can be written exactly when an auditor recipient is
      assigned to the audit, an audit_manager recipient manages it, and an
      auditor or audit_manager notifier writes to the other role. */
  lemma ValidarGuardadoEs(usuario: Persona, notificador: Persona, auditoria: Auditoria)
    ensures ValidarGuardado(usuario, notificador, auditoria).None? <==>
              (usuario.rol == "auditor" ==> usuario.id in auditoria.asignados) &&
              (usuario.rol == "audit_manager" ==> usuario.id == auditoria.gerente) &&
              (notificador.rol == "auditor" ==> usuario.rol == "audit_manager") &&
              (notificador.rol == "audit_manager" ==> usuario.rol == "auditor")
  {
  }

  /** The assignment check comes first: a recipient outside the audit is
      reported as such whoever notifies. */
  lemma AsignacionPrimero(usuario: Persona, notificador: Persona, auditoria: Auditoria)
    requires (usuario.rol == "auditor" && usuario.id !in auditoria.asignados)
             || (usuario.rol == "audit_manager" && usuario.id != auditoria.gerente)
    ensures ValidarGuardado(usuario, notificador, auditoria) == Some(AuditNotAssignantToUser)
  {
  }

  /** An auditor's note that is stored went to the audit's own manager; an
      audit_manager's note that is stored went to an auditor assigned to
      the audit. */
  lemma ParejaValida(usuario: Persona, notificador: Persona, auditoria: Auditoria)
    requires ValidarGuardado(usuario, notificador, auditoria).None?
    ensures notificador.rol == "auditor" ==> usuario.rol == "audit_manager" && usuario.id == auditoria.gerente
    ensures notificador.rol == "audit_manager" ==> usuario.rol == "auditor" && usuario.id in auditoria.asignados
  {
  }

  /** Two people of the same role among the two never exchange a note:
      auditor to auditor and audit_manager to audit_manager are refused. */
  lemma MismoRolRechazado(usuario: Persona, notificador: Persona, auditoria: Auditoria)
    requires notificador.rol == usuario.rol && (usuario.rol == "auditor" || usuario.rol == "audit_manager")
    ensures ValidarGuardado(usuario, notificador, auditoria).Some?
  {
  }
}
