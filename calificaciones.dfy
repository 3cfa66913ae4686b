/** The grade screen: grades with the name of their student and the
    description of their activity, a score field, two drop-downs and an edit
    session. */
module Calificaciones {
  import opened Js
  import opened Gateway
  import opened Schema
  import Resolver
  import Mirror

  /** A record of the `calificaciones` list: the row and the two display
      names the screen adds to it. */
  datatype CalificacionView = CalificacionView(row: Calificacion, estudianteNombre: string, actividadDescripcion: string)

  /** The calls this screen makes to the gateway. */
  datatype Request =
    | Insert(estudianteid: int, actividadid: int, puntuacion: real)
    | Update(calificacionid: int, estudianteid: int, actividadid: int, puntuacion: real)
    | Delete(calificacionid: int)

  function CalificacionId(c: CalificacionView): int { c.row.calificacionid }
  function EstudianteId(e: EstudianteRef): int { e.estudianteid }
  function ActividadId(a: ActividadRef): int { a.actividadid }

  /** `estudiante ? estudiante.nombre : 'N/A'` for `estudiante` the first
      student with id `k`. */
  function NombreDe(estudiantes: seq<EstudianteRef>, k: int): string
  {
    match Resolver.Find(estudiantes, EstudianteId, k)
    case Some(e) => e.nombre
    case None => "N/A"
  }

  /** `actividad ? actividad.descripcion : 'N/A'` for `actividad` the first
      activity with id `k`. */
  function DescripcionDe(actividades: seq<ActividadRef>, k: int): string
  {
    match Resolver.Find(actividades, ActividadId, k)
    case Some(a) => a.descripcion
    case None => "N/A"
  }

  /** The student name shown for id `k` is that of the first student with
      the id, and "N/A" when no student has it; likewise the activity
      description. */
  lemma NamesAreFirstMatches(estudiantes: seq<EstudianteRef>, actividades: seq<ActividadRef>, k: int)
    ensures forall j :: Resolver.IsFirstMatch(estudiantes, EstudianteId, k, j) ==>
              NombreDe(estudiantes, k) == estudiantes[j].nombre
    ensures (forall j :: 0 <= j < |estudiantes| ==> estudiantes[j].estudianteid != k) ==>
              NombreDe(estudiantes, k) == "N/A"
    ensures forall j :: Resolver.IsFirstMatch(actividades, ActividadId, k, j) ==>
              DescripcionDe(actividades, k) == actividades[j].descripcion
    ensures (forall j :: 0 <= j < |actividades| ==> actividades[j].actividadid != k) ==>
              DescripcionDe(actividades, k) == "N/A"
  {
  }

  /** The record shows the names its own ids refer to in the given lists. */
  predicate NamesAgree(c: CalificacionView, estudiantes: seq<EstudianteRef>, actividades: seq<ActividadRef>)
  {
    c.estudianteNombre == NombreDe(estudiantes, c.row.estudianteid) &&
    c.actividadDescripcion == DescripcionDe(actividades, c.row.actividadid)
  }

  /** The join of `fetchData`: one record per fetched grade, in fetch
      order, keeping the row, showing the names its ids refer to. */
  function WithNames(calificaciones: seq<Calificacion>, estudiantes: seq<EstudianteRef>,
                     actividades: seq<ActividadRef>): (r: seq<CalificacionView>)
    ensures |r| == |calificaciones|
    ensures forall i :: 0 <= i < |calificaciones| ==>
              r[i].row == calificaciones[i] && NamesAgree(r[i], estudiantes, actividades)
  {
    seq(|calificaciones|, i requires 0 <= i < |calificaciones| =>
          CalificacionView(calificaciones[i], NombreDe(estudiantes, calificaciones[i].estudianteid),
                           DescripcionDe(actividades, calificaciones[i].actividadid)))
  }

  /** The list after an edit of grade `k` (the `map` of `handleSubmit`):
      only that record changes, in its two display names and its score; its
      `estudianteid`, `actividadid` and id stay as they were. */
  function Regraded(calificaciones: seq<CalificacionView>, k: int, estudianteNombre: string,
                    actividadDescripcion: string, puntuacion: real): (r: seq<CalificacionView>)
    ensures |r| == |calificaciones|
    ensures forall i :: 0 <= i < |calificaciones| && calificaciones[i].row.calificacionid == k ==>
              r[i] == CalificacionView(calificaciones[i].row.(puntuacion := puntuacion),
                                       estudianteNombre, actividadDescripcion)
    ensures forall i :: 0 <= i < |calificaciones| && calificaciones[i].row.calificacionid != k ==>
              r[i] == calificaciones[i]
  {
    Mirror.Replace(calificaciones, CalificacionId, k,
      (c: CalificacionView) => CalificacionView(c.row.(puntuacion := puntuacion), estudianteNombre, actividadDescripcion))
  }

  /** An edited record shows the names of the student and activity that were
      selected, while it keeps its old ids: it agrees with its own ids when
      the selection names the same ones, and may show names of rows it does
      not refer to otherwise. */
  lemma RegradedNamesAgree(calificaciones: seq<CalificacionView>, k: int, estudiantes: seq<EstudianteRef>,
                           actividades: seq<ActividadRef>, estudianteId: int, actividadId: int,
                           puntuacion: real, i: int)
    requires 0 <= i < |calificaciones| && calificaciones[i].row.calificacionid == k
    requires calificaciones[i].row.estudianteid == estudianteId && calificaciones[i].row.actividadid == actividadId
    ensures NamesAgree(Regraded(calificaciones, k, NombreDe(estudiantes, estudianteId),
                                DescripcionDe(actividades, actividadId), puntuacion)[i], estudiantes, actividades)
  {
  }

  /** In a list without duplicate ids, regrading record `i` with the names
      its own ids resolve to and its own score leaves the list unchanged.
      `EditAndResubmit` uses this for the handlers' round trip. */
  lemma UnchangedEditKeepsRecord(calificaciones: seq<CalificacionView>, estudiantes: seq<EstudianteRef>,
                                 actividades: seq<ActividadRef>, i: int, parsed: real)
    requires 0 <= i < |calificaciones| && Mirror.UniqueKeys(calificaciones, CalificacionId)
    requires NamesAgree(calificaciones[i], estudiantes, actividades)
    requires parsed == calificaciones[i].row.puntuacion
    ensures Regraded(calificaciones, calificaciones[i].row.calificacionid,
                     NombreDe(estudiantes, calificaciones[i].row.estudianteid),
                     DescripcionDe(actividades, calificaciones[i].row.actividadid), parsed) == calificaciones
  {
  }

  class CalificacionesManager {
    var calificaciones: seq<CalificacionView>
    var estudiantes: seq<EstudianteRef>
    var actividades: seq<ActividadRef>
    var selectedEstudiante: Option<EstudianteRef>
    var selectedActividad: Option<ActividadRef>
    var puntuacion: string
    var editMode: bool
    var editCalificacionId: Option<int>
    /** `parseFloat` on the score field. */
    const parseFloat: string -> real
    /** `Number.prototype.toString` on a stored score. */
    const toString: real -> string

    /** The screen as first rendered. */
    constructor (parseFloat: string -> real, toString: real -> string)
      ensures calificaciones == [] && estudiantes == [] && actividades == []
      ensures selectedEstudiante == None && selectedActividad == None && puntuacion == ""
      ensures !editMode && editCalificacionId == None
      ensures this.parseFloat == parseFloat && this.toString == toString
    {
      calificaciones, estudiantes, actividades := [], [], [];
      selectedEstudiante, selectedActividad, puntuacion := None, None, "";
      editMode, editCalificacionId := false, None;
      this.parseFloat, this.toString := parseFloat, toString;
    }

    /** The form fields and the edit session are as they were. */
    twostate predicate FormUnchanged()
      reads this
    {
      puntuacion == old(puntuacion) && selectedEstudiante == old(selectedEstudiante) &&
      selectedActividad == old(selectedActividad) &&
      editMode == old(editMode) && editCalificacionId == old(editCalificacionId)
    }

    /** The form is empty again. */
    predicate FormReset()
      reads this
    {
      puntuacion == "" && selectedEstudiante == None && selectedActividad == None
    }

    /** `fetchData`: the three lists are replaced; a failed query counts as
        an empty list (`response.data || []`). */
    method FetchData(estudiantesReply: Reply<seq<EstudianteRef>>, actividadesReply: Reply<seq<ActividadRef>>,
                     calificacionesReply: Reply<seq<Calificacion>>)
      modifies this
      ensures estudiantes == RowsOrEmpty(estudiantesReply) && actividades == RowsOrEmpty(actividadesReply)
      ensures calificaciones == WithNames(RowsOrEmpty(calificacionesReply), estudiantes, actividades)
      ensures FormUnchanged()
    {
      estudiantes := RowsOrEmpty(estudiantesReply);
      actividades := RowsOrEmpty(actividadesReply);
      calificaciones := WithNames(RowsOrEmpty(calificacionesReply), estudiantes, actividades);
    }

    /** The student drop-down's `onChange`: the first student with the
        chosen id, or nothing. */
    method SelectEstudiante(estudianteId: int)
      modifies this
      ensures selectedEstudiante == Resolver.Find(estudiantes, EstudianteId, estudianteId)
      ensures calificaciones == old(calificaciones) && estudiantes == old(estudiantes) && actividades == old(actividades)
      ensures selectedActividad == old(selectedActividad) && puntuacion == old(puntuacion)
      ensures editMode == old(editMode) && editCalificacionId == old(editCalificacionId)
    {
      selectedEstudiante := Resolver.Find(estudiantes, EstudianteId, estudianteId);
    }

    /** The activity drop-down's `onChange`: the first activity with the
        chosen id, or nothing. */
    method SelectActividad(actividadId: int)
      modifies this
      ensures selectedActividad == Resolver.Find(actividades, ActividadId, actividadId)
      ensures calificaciones == old(calificaciones) && estudiantes == old(estudiantes) && actividades == old(actividades)
      ensures selectedEstudiante == old(selectedEstudiante) && puntuacion == old(puntuacion)
      ensures editMode == old(editMode) && editCalificacionId == old(editCalificacionId)
    {
      selectedActividad := Resolver.Find(actividades, ActividadId, actividadId);
    }

    /** The submission passes the guard: a score that is not blank and both
        selections made. */
    predicate CanSubmit()
      reads this
    {
      !Blank(puntuacion) && selectedEstudiante.Some? && selectedActividad.Some?
    }

    /** The submission takes the edit path: `editMode && editCalificacionId`. */
    predicate Editing()
      reads this
    {
      editMode && Truthy(editCalificacionId)
    }

    /** What the edit path does: it sends the update, never reads its reply,
        patches the edited record, resets the form and ends the session. */
    twostate predicate EditDone(new request: Option<Request>)
      requires old(CanSubmit()) && old(Editing())
      reads this
    {
      var e, a, score := old(selectedEstudiante).value, old(selectedActividad).value, parseFloat(old(puntuacion));
      && request == Some(Update(old(editCalificacionId).value, e.estudianteid, a.actividadid, score))
      && estudiantes == old(estudiantes) && actividades == old(actividades)
      && calificaciones == Regraded(old(calificaciones), old(editCalificacionId).value,
                                    NombreDe(old(estudiantes), e.estudianteid),
                                    DescripcionDe(old(actividades), a.actividadid), score)
      && FormReset() && !editMode && editCalificacionId == None
    }

    /** What the add path does, given the reply to its insert: an error, or
        an answer without data ("No data returned"), changes nothing; the
        returned row is appended with the selected names and the form reset.
        The edit session is left as it was. */
    twostate predicate AddDone(insertReply: Reply<Option<Calificacion>>, new request: Option<Request>)
      requires old(CanSubmit())
      reads this
    {
      var e, a, score := old(selectedEstudiante).value, old(selectedActividad).value, parseFloat(old(puntuacion));
      && request == Some(Insert(e.estudianteid, a.actividadid, score))
      && estudiantes == old(estudiantes) && actividades == old(actividades)
      && editMode == old(editMode) && editCalificacionId == old(editCalificacionId)
      && if insertReply.Ok? && insertReply.data.Some? then
           calificaciones == old(calificaciones) + [CalificacionView(insertReply.data.value, e.nombre, a.descripcion)] &&
           FormReset()
         else
           calificaciones == old(calificaciones) && FormUnchanged()
    }

    /** `handleSubmit`: nothing is sent and nothing changes unless the guard
        passes; then the edit path runs on `editMode && editCalificacionId`,
        the add path otherwise. */
    method Submit(insertReply: Reply<Option<Calificacion>>) returns (request: Option<Request>)
      modifies this
      ensures !old(CanSubmit()) ==>
                request == None && calificaciones == old(calificaciones) && estudiantes == old(estudiantes) &&
                actividades == old(actividades) && FormUnchanged()
      ensures old(CanSubmit()) && old(Editing()) ==> EditDone(request)
      ensures old(CanSubmit()) && !old(Editing()) ==> AddDone(insertReply, request)
    {
      if !CanSubmit() {
        return None;
      }
      var e, a, score := selectedEstudiante.value, selectedActividad.value, parseFloat(puntuacion);
      if Editing() {
        var id := editCalificacionId.value;
        request := Some(Update(id, e.estudianteid, a.actividadid, score));
        var nombre, descripcion := NombreDe(estudiantes, e.estudianteid), DescripcionDe(actividades, a.actividadid);
        editMode, editCalificacionId := false, None;
        calificaciones := Regraded(calificaciones, id, nombre, descripcion, score);
      } else {
        request := Some(Insert(e.estudianteid, a.actividadid, score));
        if insertReply.Err? || insertReply.data.None? {
          return;
        }
        calificaciones := calificaciones + [CalificacionView(insertReply.data.value, e.nombre, a.descripcion)];
      }
      puntuacion, selectedEstudiante, selectedActividad := "", None, None;
    }

    /** `deleteCalificacion`: the reply of the delete is awaited but never
        read, so the grade is filtered out whatever the gateway answered. */
    method DeleteCalificacion(calificacionId: int, reply: Outcome) returns (request: Request)
      modifies this
      ensures request == Delete(calificacionId)
      ensures calificaciones == Mirror.Remove(old(calificaciones), CalificacionId, calificacionId)
      ensures estudiantes == old(estudiantes) && actividades == old(actividades) && FormUnchanged()
    {
      request := Delete(calificacionId);
      calificaciones := Mirror.Remove(calificaciones, CalificacionId, calificacionId);
    }

    /** `handleEdit`: enters the edit session on `calificacion`, building both
        selections from the record's own ids and display names and loading
        the score's string form into the field. */
    method HandleEdit(calificacion: CalificacionView)
      modifies this
      ensures editMode && editCalificacionId == Some(calificacion.row.calificacionid)
      ensures selectedEstudiante == Some(EstudianteRef(calificacion.row.estudianteid, calificacion.estudianteNombre))
      ensures selectedActividad == Some(ActividadRef(calificacion.row.actividadid, calificacion.actividadDescripcion))
      ensures puntuacion == toString(calificacion.row.puntuacion)
      ensures calificaciones == old(calificaciones) && estudiantes == old(estudiantes) && actividades == old(actividades)
    {
      editMode := true;
      editCalificacionId := Some(calificacion.row.calificacionid);
      selectedEstudiante := Some(EstudianteRef(calificacion.row.estudianteid, calificacion.estudianteNombre));
      selectedActividad := Some(ActividadRef(calificacion.row.actividadid, calificacion.actividadDescripcion));
      puntuacion := toString(calificacion.row.puntuacion);
    }

    /** Entering the edit session on grade `i` and submitting the untouched
        form, when the score's string form parses back to the score and the
        record shows the names its ids refer to: for a non-zero id the update
        resends the record's own values and the list comes back unchanged;
        for id 0 `editMode && editCalificacionId` is falsy, so an insert is
        sent and its returned row is appended; a score whose string form is
        blank stops at the guard. */
    method EditAndResubmit(i: int, insertReply: Reply<Option<Calificacion>>) returns (request: Option<Request>)
      requires 0 <= i < |calificaciones| && Mirror.UniqueKeys(calificaciones, CalificacionId)
      requires NamesAgree(calificaciones[i], estudiantes, actividades)
      requires parseFloat(toString(calificaciones[i].row.puntuacion)) == calificaciones[i].row.puntuacion
      modifies this
      ensures var c := old(calificaciones[i]);
              request == (if Blank(toString(c.row.puntuacion)) then None
                          else if c.row.calificacionid != 0
                          then Some(Update(c.row.calificacionid, c.row.estudianteid, c.row.actividadid, c.row.puntuacion))
                          else Some(Insert(c.row.estudianteid, c.row.actividadid, c.row.puntuacion)))
      ensures var c := old(calificaciones[i]);
              calificaciones == (if !Blank(toString(c.row.puntuacion)) && c.row.calificacionid == 0 &&
                                    insertReply.Ok? && insertReply.data.Some?
                                 then old(calificaciones) + [CalificacionView(insertReply.data.value, c.estudianteNombre,
                                                                              c.actividadDescripcion)]
                                 else old(calificaciones))
    {
      var c := calificaciones[i];
      UnchangedEditKeepsRecord(calificaciones, estudiantes, actividades, i, c.row.puntuacion);
      HandleEdit(c);
      request := Submit(insertReply);
    }
  }
}
