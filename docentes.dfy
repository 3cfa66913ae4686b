/** The teacher screen: teachers with the name of their role, a name field, a
    role drop-down and an edit session. */
module Docentes {
  import opened Js
  import opened Gateway
  import opened Schema
  import Resolver
  import Mirror

  /** A record of the `docentes` list: the row and the role name the screen
      adds to it. */
  datatype DocenteView = DocenteView(row: Docente, nombrerol: string)

  /** The calls this screen makes to the gateway. */
  datatype Request =
    | Insert(nombre: string, rolid: int)
    | Update(docenteid: int, nombre: string, rolid: int)
    | Delete(docenteid: int)

  function DocenteId(d: DocenteView): int { d.row.docenteid }
  function RolId(r: Rol): int { r.rolid }

  /** The role name shown for a teacher whose role query found no row. */
  const RolNoDefinido := "Rol no definido"

  /** One row of the fetch joined with the answer to its per-row query
      `select nombrerol from roles where rolid = docente.rolid` (`.single()`):
      an error fails the row; an answer without data gives the fallback name. */
  function JoinRol(lookup: int -> Reply<Option<string>>): Docente -> Reply<DocenteView>
  {
    (d: Docente) => match lookup(d.rolid)
                    case Err => Err
                    case Ok(None) => Ok(DocenteView(d, RolNoDefinido))
                    case Ok(Some(nombrerol)) => Ok(DocenteView(d, nombrerol))
  }

  /** The join of `fetchDocentes`: one record per teacher, in fetch order,
      keeping the row, with the role name the gateway gave for its `rolid`,
      or "Rol no definido" when it gave none; one failed role query fails
      the whole join. */
  function WithRoles(docentes: seq<Docente>, lookup: int -> Reply<Option<string>>): (r: Reply<seq<DocenteView>>)
    ensures r.Ok? <==> forall i :: 0 <= i < |docentes| ==> lookup(docentes[i].rolid).Ok?
    ensures r.Ok? ==> |r.data| == |docentes|
    ensures r.Ok? ==> forall i :: 0 <= i < |docentes| ==> r.data[i].row == docentes[i]
    ensures r.Ok? ==> forall i :: 0 <= i < |docentes| ==>
              r.data[i].nombrerol == (if lookup(docentes[i].rolid).data.Some?
                                      then lookup(docentes[i].rolid).data.value else RolNoDefinido)
  {
    var q := JoinRol(lookup);
    var r := AllOrNothing(docentes, q);
    assert forall i :: 0 <= i < |docentes| ==> (q(docentes[i]).Ok? <==> lookup(docentes[i].rolid).Ok?);
    r
  }

  /** The teacher ids of the joined list are those of the fetched rows, so a
      fetch without duplicate ids gives a list without duplicate ids. */
  lemma WithRolesKeepsUniqueIds(docentes: seq<Docente>, lookup: int -> Reply<Option<string>>)
    requires forall a, b :: 0 <= a < b < |docentes| ==> docentes[a].docenteid != docentes[b].docenteid
    requires WithRoles(docentes, lookup).Ok?
    ensures Mirror.UniqueKeys(WithRoles(docentes, lookup).data, DocenteId)
  {
  }

  class DocentesManager {
    var docentes: seq<DocenteView>
    var nombre: string
    var roles: seq<Rol>
    var selectedRol: Option<Rol>
    var editMode: bool
    var editDocenteId: Option<int>

    /** The screen as first rendered; the role list is still empty, so no
        role is selected. */
    constructor ()
      ensures docentes == [] && nombre == "" && roles == [] && selectedRol == None
      ensures !editMode && editDocenteId == None
    {
      docentes, nombre, roles, selectedRol := [], "", [], None;
      editMode, editDocenteId := false, None;
    }

    /** The form fields and the edit session are as they were. */
    twostate predicate FormUnchanged()
      reads this
    {
      nombre == old(nombre) && selectedRol == old(selectedRol) &&
      editMode == old(editMode) && editDocenteId == old(editDocenteId)
    }

    /** `fetchRoles`: the roles offered by the drop-down; an error leaves them. */
    method FetchRoles(reply: Reply<seq<Rol>>)
      modifies this
      ensures roles == (if reply.Ok? then reply.data else old(roles))
      ensures docentes == old(docentes) && FormUnchanged()
    {
      if reply.Ok? {
        roles := reply.data;
      }
    }

    /** `fetchDocentes`: the teachers with their role names replace the list;
        an error of the teacher query or of any role query leaves it. */
    method FetchDocentes(reply: Reply<seq<Docente>>, lookup: int -> Reply<Option<string>>)
      modifies this
      ensures reply.Ok? && WithRoles(reply.data, lookup).Ok? ==> docentes == WithRoles(reply.data, lookup).data
      ensures !(reply.Ok? && WithRoles(reply.data, lookup).Ok?) ==> docentes == old(docentes)
      ensures roles == old(roles) && FormUnchanged()
    {
      if reply.Err? {
        return;
      }
      var joined := WithRoles(reply.data, lookup);
      if joined.Ok? {
        docentes := joined.data;
      }
    }

    /** The role drop-down's `onChange`: the first role with the chosen id,
        or nothing. */
    method SelectRol(rolId: int)
      modifies this
      ensures selectedRol == Resolver.Find(roles, RolId, rolId)
      ensures docentes == old(docentes) && roles == old(roles) && nombre == old(nombre)
      ensures editMode == old(editMode) && editDocenteId == old(editDocenteId)
    {
      selectedRol := Resolver.Find(roles, RolId, rolId);
    }

    /** What `handleSubmit` does, given the reply to the insert it sends on
        the add path. The edit path sends the update, never reads its reply,
        ends the session and leaves the list as it was. On the add path an
        answer without data makes `data[0]` throw inside the functional
        update of the list, which runs outside the `try`: the list stays as
        it was, the form is reset, and `uncaught` reports the error. */
    twostate predicate SubmitDone(insertReply: Reply<Option<Docente>>, new request: Option<Request>, uncaught: bool)
      reads this
    {
      var proceeds := !Blank(old(nombre)) && old(selectedRol).Some?;
      var editing := old(editMode) && Truthy(old(editDocenteId));
      && roles == old(roles)
      && if !proceeds then
           request == None && !uncaught && docentes == old(docentes) && FormUnchanged()
         else if editing then
           && request == Some(Update(old(editDocenteId).value, old(nombre), old(selectedRol).value.rolid))
           && !uncaught && docentes == old(docentes)
           && nombre == "" && selectedRol == None && !editMode && editDocenteId == None
         else
           && request == Some(Insert(old(nombre), old(selectedRol).value.rolid))
           && editMode == old(editMode) && editDocenteId == old(editDocenteId)
           && match insertReply
              case Err => !uncaught && docentes == old(docentes) && FormUnchanged()
              case Ok(None) => uncaught && docentes == old(docentes) && nombre == "" && selectedRol == None
              case Ok(Some(row)) =>
                && !uncaught && docentes == old(docentes) + [DocenteView(row, old(selectedRol).value.nombrerol)]
                && nombre == "" && selectedRol == None
    }

    /** `handleSubmit`: takes the edit path on `editMode && editDocenteId`,
        the add path otherwise. */
    method Submit(insertReply: Reply<Option<Docente>>) returns (request: Option<Request>, uncaught: bool)
      modifies this
      ensures SubmitDone(insertReply, request, uncaught)
    {
      uncaught := false;
      if Blank(nombre) || selectedRol.None? {
        return None, false;
      }
      var rol := selectedRol.value;
      if editMode && Truthy(editDocenteId) {
        request := Some(Update(editDocenteId.value, nombre, rol.rolid));
        editMode := false;
        editDocenteId := None;
      } else {
        request := Some(Insert(nombre, rol.rolid));
        match insertReply {
          case Err =>
            return;
          case Ok(None) =>
            uncaught := true;
          case Ok(Some(row)) =>
            docentes := docentes + [DocenteView(row, rol.nombrerol)];
        }
      }
      nombre := "";
      selectedRol := None;
    }

    /** `deleteDocente`: the reply of the delete is awaited but never read,
        so the teacher is filtered out whatever the gateway answered. */
    method DeleteDocente(docenteId: int, reply: Outcome) returns (request: Request)
      modifies this
      ensures request == Delete(docenteId)
      ensures docentes == Mirror.Remove(old(docentes), DocenteId, docenteId)
      ensures roles == old(roles) && FormUnchanged()
    {
      request := Delete(docenteId);
      docentes := Mirror.Remove(docentes, DocenteId, docenteId);
    }

    /** `handleEdit`: enters the edit session on `docente`, copying its name
        and preselecting the first role with the row's `rolid`, or nothing. */
    method HandleEdit(docente: DocenteView)
      modifies this
      ensures editMode && editDocenteId == Some(docente.row.docenteid) && nombre == docente.row.nombre
      ensures selectedRol == Resolver.Find(roles, RolId, docente.row.rolid)
      ensures docentes == old(docentes) && roles == old(roles)
    {
      editMode := true;
      editDocenteId := Some(docente.row.docenteid);
      nombre := docente.row.nombre;
      selectedRol := Resolver.Find(roles, RolId, docente.row.rolid);
    }
  }
}
