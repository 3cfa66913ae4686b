/** The role screen: the list of roles, one text field, and an edit session
    that turns the form's submission into an update of one role. */
module Roles {
  import opened Js
  import opened Gateway
  import opened Schema
  import Mirror

  /** The calls this screen makes to the gateway. */
  datatype Request =
    | Insert(nombrerol: string)
    | Update(rolid: int, nombrerol: string)
    | Delete(rolid: int)

  function RolId(r: Rol): int { r.rolid }

  /** The list after a successful rename of the roles whose id is `k`:
      `roles.map(rol => rol.rolid === k ? { ...rol, nombrerol } : rol)`. */
  function Renamed(roles: seq<Rol>, k: int, name: string): (r: seq<Rol>)
    ensures |r| == |roles|
    ensures forall i :: 0 <= i < |roles| && roles[i].rolid == k ==> r[i] == Rol(k, name)
    ensures forall i :: 0 <= i < |roles| && roles[i].rolid != k ==> r[i] == roles[i]
  {
    Mirror.Replace(roles, RolId, k, (x: Rol) => x.(nombrerol := name))
  }

  /** Renaming never changes an id, so a list without duplicate ids keeps
      that property. */
  lemma RenamedKeepsUniqueIds(roles: seq<Rol>, k: int, name: string)
    requires Mirror.UniqueKeys(roles, RolId)
    ensures Mirror.UniqueKeys(Renamed(roles, k, name), RolId)
  {
  }

  /** Renaming to the name the roles already carry changes nothing: what
      an edit submitted without touching the field does to the list. */
  lemma RenamedToSameName(roles: seq<Rol>, k: int, name: string)
    requires forall i :: 0 <= i < |roles| && roles[i].rolid == k ==> roles[i].nombrerol == name
    ensures Renamed(roles, k, name) == roles
  {
  }

  class RolManager {
    var roles: seq<Rol>
    var nombrerol: string
    var editMode: bool
    var editRolId: Option<int>

    /** The screen as first rendered. */
    constructor ()
      ensures roles == [] && nombrerol == "" && !editMode && editRolId == None
    {
      roles, nombrerol, editMode, editRolId := [], "", false, None;
    }

    /** `fetchRoles`: the rows replace the list; an error leaves it. */
    method FetchRoles(reply: Reply<seq<Rol>>)
      modifies this
      ensures roles == (if reply.Ok? then reply.data else old(roles))
      ensures nombrerol == old(nombrerol) && editMode == old(editMode) && editRolId == old(editRolId)
    {
      if reply.Ok? {
        roles := reply.data;
      }
    }

    /** What `addRol` does, given the reply to its insert. */
    twostate predicate AddRolDone(reply: Reply<Option<Rol>>, new request: Option<Request>)
      reads this
    {
      && request == (if Blank(old(nombrerol)) then None else Some(Insert(old(nombrerol))))
      && editMode == old(editMode) && editRolId == old(editRolId)
      && if !Blank(old(nombrerol)) && reply.Ok? && reply.data.Some? then
           roles == old(roles) + [reply.data.value] && nombrerol == ""
         else
           roles == old(roles) && nombrerol == old(nombrerol)
    }

    /** `addRol`: a blank name sends nothing; an error or an answer without
        data changes nothing; the returned row is appended and the field
        cleared. */
    method AddRol(reply: Reply<Option<Rol>>) returns (request: Option<Request>)
      modifies this
      ensures AddRolDone(reply, request)
    {
      if Blank(nombrerol) {
        return None;
      }
      request := Some(Insert(nombrerol));
      match reply {
        case Err =>
        case Ok(None) =>
        case Ok(Some(nuevoRol)) =>
          roles := roles + [nuevoRol];
          nombrerol := "";
      }
    }

    /** What `updateRol` does, given the reply to its update. */
    twostate predicate UpdateRolDone(reply: Outcome, new request: Option<Request>)
      reads this
    {
      var proceeds := !Blank(old(nombrerol)) && Truthy(old(editRolId));
      && request == (if proceeds then Some(Update(old(editRolId).value, old(nombrerol))) else None)
      && if proceeds && reply.Succeeded? then
           && roles == Renamed(old(roles), old(editRolId).value, old(nombrerol))
           && nombrerol == "" && !editMode && editRolId == None
         else
           && roles == old(roles) && nombrerol == old(nombrerol)
           && editMode == old(editMode) && editRolId == old(editRolId)
    }

    /** `updateRol`: needs a non-blank name and a truthy id; on success the
        roles with that id take the new name and the edit session ends. */
    method UpdateRol(reply: Outcome) returns (request: Option<Request>)
      modifies this
      ensures UpdateRolDone(reply, request)
    {
      if Blank(nombrerol) || !Truthy(editRolId) {
        return None;
      }
      var id := editRolId.value;
      request := Some(Update(id, nombrerol));
      if reply.Failed? {
        return;
      }
      editMode := false;
      editRolId := None;
      roles := Renamed(roles, id, nombrerol);
      nombrerol := "";
    }

    /** `deleteRol`: the role leaves the list only when the gateway reports
        no error. */
    method DeleteRol(rolId: int, reply: Outcome) returns (request: Request)
      modifies this
      ensures request == Delete(rolId)
      ensures roles == (if reply.Succeeded? then Mirror.Remove(old(roles), RolId, rolId) else old(roles))
      ensures nombrerol == old(nombrerol) && editMode == old(editMode) && editRolId == old(editRolId)
    {
      request := Delete(rolId);
      if reply.Succeeded? {
        roles := Mirror.Remove(roles, RolId, rolId);
      }
    }

    /** `handleEdit`: starts (or retargets) the edit session on `rol`. */
    method HandleEdit(rol: Rol)
      modifies this
      ensures editMode && editRolId == Some(rol.rolid) && nombrerol == rol.nombrerol
      ensures roles == old(roles)
    {
      editMode := true;
      editRolId := Some(rol.rolid);
      nombrerol := rol.nombrerol;
    }

    /** The form's submit handler: `editMode ? updateRol() : addRol()`. Only
        the reply to the call actually made is read. */
    method Submit(insertReply: Reply<Option<Rol>>, updateReply: Outcome) returns (request: Option<Request>)
      modifies this
      ensures old(editMode) ==> UpdateRolDone(updateReply, request)
      ensures !old(editMode) ==> AddRolDone(insertReply, request)
    {
      if editMode {
        request := UpdateRol(updateReply);
      } else {
        request := AddRol(insertReply);
      }
    }
  }
}
