/** The student screen: students with the name of their role, a name field, a
    role drop-down and an edit session. */
module Estudiantes {
  import opened Js
  import opened Gateway
  import opened Schema
  import Resolver
  import Mirror

  /** A record of the `estudiantes` list: the row and the role name the
      screen adds to it. */
  datatype EstudianteView = EstudianteView(row: Estudiante, nombrerol: string)

  /** The calls this screen makes to the gateway. */
  datatype Request =
    | Insert(nombre: string, rolid: int)
    | Update(estudianteid: int, nombre: string, rolid: int)
    | Delete(estudianteid: int)

  function EstudianteId(e: EstudianteView): int { e.row.estudianteid }
  function RolId(r: Rol): int { r.rolid }

  /** One row of the fetch joined with the answer to its per-row query
      `select nombrerol from roles where rolid = estudiante.rolid`
      (`.single()`). An answer without data makes `rolData.nombrerol` throw,
      which fails the row just as an error does. */
  function JoinRol(lookup: int -> Reply<Option<string>>): Estudiante -> Reply<EstudianteView>
  {
    (e: Estudiante) => match lookup(e.rolid)
                       case Ok(Some(nombrerol)) => Ok(EstudianteView(e, nombrerol))
                       case _ => Err
  }

  /** The role query for `rolid` came back with a row. */
  predicate HasRol(lookup: int -> Reply<Option<string>>, rolid: int)
  {
    lookup(rolid).Ok? && lookup(rolid).data.Some?
  }

  /** The join of `fetchEstudiantes`: it succeeds exactly when every role
      query comes back with a row, and then gives one record per student,
      in fetch order, keeping the row, with the role name the gateway gave. */
  function WithRoles(estudiantes: seq<Estudiante>, lookup: int -> Reply<Option<string>>): (r: Reply<seq<EstudianteView>>)
    ensures r.Ok? <==> forall i :: 0 <= i < |estudiantes| ==> HasRol(lookup, estudiantes[i].rolid)
    ensures r.Ok? ==> |r.data| == |estudiantes|
    ensures r.Ok? ==> forall i :: 0 <= i < |estudiantes| ==>
              r.data[i].row == estudiantes[i] && Some(r.data[i].nombrerol) == lookup(estudiantes[i].rolid).data
  {
    var q := JoinRol(lookup);
    var r := AllOrNothing(estudiantes, q);
    assert forall i :: 0 <= i < |estudiantes| ==> (q(estudiantes[i]).Ok? <==> HasRol(lookup, estudiantes[i].rolid));
    r
  }

  class EstudiantesManager {
    var estudiantes: seq<EstudianteView>
    var nombre: string
    var roles: seq<Rol>
    var selectedRol: Option<Rol>
    var editMode: bool
    var editEstudianteId: Option<int>

    /** The screen as first rendered. */
    constructor ()
      ensures estudiantes == [] && nombre == "" && roles == [] && selectedRol == None
      ensures !editMode && editEstudianteId == None
    {
      estudiantes, nombre, roles, selectedRol := [], "", [], None;
      editMode, editEstudianteId := false, None;
    }

    /** The form fields and the edit session are as they were. */
    twostate predicate FormUnchanged()
      reads this
    {
      nombre == old(nombre) && selectedRol == old(selectedRol) &&
      editMode == old(editMode) && editEstudianteId == old(editEstudianteId)
    }

    /** `fetchRoles`: the roles offered by the drop-down; an error leaves them. */
    method FetchRoles(reply: Reply<seq<Rol>>)
      modifies this
      ensures roles == (if reply.Ok? then reply.data else old(roles))
      ensures estudiantes == old(estudiantes) && FormUnchanged()
    {
      if reply.Ok? {
        roles := reply.data;
      }
    }

    /** `fetchEstudiantes`: the students with their role names replace the
        list; an error of the student query, or any role query that fails
        or finds no row, leaves it. */
    method FetchEstudiantes(reply: Reply<seq<Estudiante>>, lookup: int -> Reply<Option<string>>)
      modifies this
      ensures reply.Ok? && WithRoles(reply.data, lookup).Ok? ==> estudiantes == WithRoles(reply.data, lookup).data
      ensures !(reply.Ok? && WithRoles(reply.data, lookup).Ok?) ==> estudiantes == old(estudiantes)
      ensures roles == old(roles) && FormUnchanged()
    {
      if reply.Err? {
        return;
      }
      var joined := WithRoles(reply.data, lookup);
      if joined.Ok? {
        estudiantes := joined.data;
      }
    }

    /** The role drop-down's `onChange`: the first role with the chosen id,
        or nothing (`undefined`). */
    method SelectRol(rolId: int)
      modifies this
      ensures selectedRol == Resolver.Find(roles, RolId, rolId)
      ensures estudiantes == old(estudiantes) && roles == old(roles) && nombre == old(nombre)
      ensures editMode == old(editMode) && editEstudianteId == old(editEstudianteId)
    {
      selectedRol := Resolver.Find(roles, RolId, rolId);
    }

    /** What `handleSubmit` does, given the reply to the insert it sends on
        the add path. The edit path sends the update, never reads its reply,
        ends the session and leaves the list as it was. On the add path an
        answer without data makes `data[0]` throw inside the functional
        update of the list, which runs outside the `try`: the list stays as
        it was, the form is reset, and `uncaught` reports the error. */
    twostate predicate SubmitDone(insertReply: Reply<Option<Estudiante>>, new request: Option<Request>, uncaught: bool)
      reads this
    {
      var proceeds := !Blank(old(nombre)) && old(selectedRol).Some?;
      var editing := old(editMode) && Truthy(old(editEstudianteId));
      && roles == old(roles)
      && if !proceeds then
           request == None && !uncaught && estudiantes == old(estudiantes) && FormUnchanged()
         else if editing then
           && request == Some(Update(old(editEstudianteId).value, old(nombre), old(selectedRol).value.rolid))
           && !uncaught && estudiantes == old(estudiantes)
           && nombre == "" && selectedRol == None && !editMode && editEstudianteId == None
         else
           && request == Some(Insert(old(nombre), old(selectedRol).value.rolid))
           && editMode == old(editMode) && editEstudianteId == old(editEstudianteId)
           && match insertReply
              case Err => !uncaught && estudiantes == old(estudiantes) && FormUnchanged()
              case Ok(None) => uncaught && estudiantes == old(estudiantes) && nombre == "" && selectedRol == None
              case Ok(Some(row)) =>
                && !uncaught && estudiantes == old(estudiantes) + [EstudianteView(row, old(selectedRol).value.nombrerol)]
                && nombre == "" && selectedRol == None
    }

    /** `handleSubmit`: takes the edit path on `editMode && editEstudianteId`,
        the add path otherwise. */
    method Submit(insertReply: Reply<Option<Estudiante>>) returns (request: Option<Request>, uncaught: bool)
      modifies this
      ensures SubmitDone(insertReply, request, uncaught)
    {
      uncaught := false;
      if Blank(nombre) || selectedRol.None? {
        return None, false;
      }
      var rol := selectedRol.value;
      if editMode && Truthy(editEstudianteId) {
        request := Some(Update(editEstudianteId.value, nombre, rol.rolid));
        editMode := false;
        editEstudianteId := None;
      } else {
        request := Some(Insert(nombre, rol.rolid));
        match insertReply {
          case Err =>
            return;
          case Ok(None) =>
            uncaught := true;
          case Ok(Some(row)) =>
            estudiantes := estudiantes + [EstudianteView(row, rol.nombrerol)];
        }
      }
      nombre := "";
      selectedRol := None;
    }

    /** `deleteEstudiante`: the reply of the delete is awaited but never
        read, so the student is filtered out whatever the gateway answered. */
    method DeleteEstudiante(estudianteId: int, reply: Outcome) returns (request: Request)
      modifies this
      ensures request == Delete(estudianteId)
      ensures estudiantes == Mirror.Remove(old(estudiantes), EstudianteId, estudianteId)
      ensures roles == old(roles) && FormUnchanged()
    {
      request := Delete(estudianteId);
      estudiantes := Mirror.Remove(estudiantes, EstudianteId, estudianteId);
    }

    /** `handleEdit`: enters the edit session on `estudiante`, copying its
        name and building the selected role from the record's own `rolid`
        and displayed role name, without looking it up in `roles`. */
    method HandleEdit(estudiante: EstudianteView)
      modifies this
      ensures editMode && editEstudianteId == Some(estudiante.row.estudianteid) && nombre == estudiante.row.nombre
      ensures selectedRol == Some(Rol(estudiante.row.rolid, estudiante.nombrerol))
      ensures estudiantes == old(estudiantes) && roles == old(roles)
    {
      editMode := true;
      editEstudianteId := Some(estudiante.row.estudianteid);
      nombre := estudiante.row.nombre;
      selectedRol := Some(Rol(estudiante.row.rolid, estudiante.nombrerol));
    }
  }
}
