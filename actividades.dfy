/** The activity screen: activities with their topic, a description field, a
    topic drop-down, a status drop-down and an edit session. */
module Actividades {
  import opened Js
  import opened Gateway
  import opened Schema
  import Resolver
  import Mirror

  /** A record of the `actividades` list: the row and the `tema` object the
      screen attaches to it (`None` for `null` or `undefined`). */
  datatype ActividadView = ActividadView(row: Actividad, tema: Option<TemaRef>)

  /** The calls this screen makes to the gateway. */
  datatype Request =
    | Insert(descripcion: string, estado: string, temaid: int)
    | Update(actividadid: int, descripcion: string, estado: string, temaid: int)
    | Delete(actividadid: int)

  function ActividadId(a: ActividadView): int { a.row.actividadid }
  function TemaId(t: TemaRef): int { t.temaid }

  /** The values of the status drop-down; the first is the initial one. */
  const EstadoOptions: seq<string> := ["Pendiente", "Realizada"]

  /** The topic column: `actividad.tema ? actividad.tema.titulo : 'N/A'`. */
  function TemaLabel(a: ActividadView): string
  {
    if a.tema.Some? then a.tema.value.titulo else "N/A"
  }

  /** The record's `tema` is the topic its own `temaid` refers to, when it
      has one. */
  predicate TemaAgrees(a: ActividadView)
  {
    a.tema.Some? ==> a.tema.value.temaid == a.row.temaid
  }

  /** The join of `fetchData`: one record per fetched activity, in fetch
      order, keeping the row and carrying the first topic of `temas` with
      the row's `temaid`, or nothing when no topic has it. */
  function WithTemas(actividades: seq<Actividad>, temas: seq<TemaRef>): (r: seq<ActividadView>)
    ensures |r| == |actividades|
    ensures forall i :: 0 <= i < |actividades| ==> r[i].row == actividades[i]
    ensures forall i :: 0 <= i < |actividades| ==>
              (r[i].tema.None? <==> forall j :: 0 <= j < |temas| ==> temas[j].temaid != actividades[i].temaid)
    ensures forall i :: 0 <= i < |actividades| && r[i].tema.Some? ==>
              exists j :: Resolver.IsFirstMatch(temas, TemaId, actividades[i].temaid, j) && temas[j] == r[i].tema.value
  {
    seq(|actividades|, i requires 0 <= i < |actividades| =>
          ActividadView(actividades[i], Resolver.Find(temas, TemaId, actividades[i].temaid)))
  }

  /** Every record the join produces agrees with its own `temaid`, and it
      shows the title of the first topic with that id, or "N/A". */
  lemma WithTemasAgree(actividades: seq<Actividad>, temas: seq<TemaRef>, i: int)
    requires 0 <= i < |actividades|
    ensures TemaAgrees(WithTemas(actividades, temas)[i])
    ensures forall j :: Resolver.IsFirstMatch(temas, TemaId, actividades[i].temaid, j) ==>
              TemaLabel(WithTemas(actividades, temas)[i]) == temas[j].titulo
    ensures (forall j :: 0 <= j < |temas| ==> temas[j].temaid != actividades[i].temaid) ==>
              TemaLabel(WithTemas(actividades, temas)[i]) == "N/A"
  {
  }

  /** The list after an edit of activity `k` (the `map` of `handleSubmit`):
      only that record changes, in its description and status and in the
      `tema` object it carries; its `temaid` and id stay as they were. */
  function Revised(actividades: seq<ActividadView>, k: int, descripcion: string, estado: string,
                   tema: Option<TemaRef>): (r: seq<ActividadView>)
    ensures |r| == |actividades|
    ensures forall i :: 0 <= i < |actividades| && actividades[i].row.actividadid == k ==>
              r[i] == ActividadView(actividades[i].row.(descripcion := descripcion, estado := estado), tema)
    ensures forall i :: 0 <= i < |actividades| && actividades[i].row.actividadid != k ==> r[i] == actividades[i]
  {
    Mirror.Replace(actividades, ActividadId, k,
      (a: ActividadView) => ActividadView(a.row.(descripcion := descripcion, estado := estado), tema))
  }

  /** An edit that keeps the record's topic keeps it agreeing with its
      `temaid`; an edit that moves it to another topic leaves it showing the
      new topic while its `temaid` still names the old one. */
  lemma RevisedTemaAgreement(actividades: seq<ActividadView>, k: int, descripcion: string, estado: string,
                             tema: TemaRef, i: int)
    requires 0 <= i < |actividades| && actividades[i].row.actividadid == k
    ensures TemaAgrees(Revised(actividades, k, descripcion, estado, Some(tema))[i]) <==>
              tema.temaid == actividades[i].row.temaid
  {
  }

  class ActividadManager {
    var actividades: seq<ActividadView>
    var descripcion: string
    var estado: string
    var temas: seq<TemaRef>
    var selectedTema: Option<TemaRef>
    var editMode: bool
    var editActividadId: Option<int>

    /** The screen as first rendered. */
    constructor ()
      ensures actividades == [] && descripcion == "" && estado == EstadoOptions[0]
      ensures temas == [] && selectedTema == None && !editMode && editActividadId == None
    {
      actividades, descripcion, estado := [], "", "Pendiente";
      temas, selectedTema, editMode, editActividadId := [], None, false, None;
    }

    /** The status field holds one of the drop-down's values. */
    predicate EstadoValid()
      reads this
    {
      estado in EstadoOptions
    }

    /** The form fields and the edit session are as they were. */
    twostate predicate FormUnchanged()
      reads this
    {
      descripcion == old(descripcion) && estado == old(estado) && selectedTema == old(selectedTema) &&
      editMode == old(editMode) && editActividadId == old(editActividadId)
    }

    /** The form is back to its defaults. */
    predicate FormReset()
      reads this
    {
      descripcion == "" && estado == "Pendiente" && selectedTema == None
    }

    /** `fetchData`: both lists are replaced; a failed query counts as an
        empty list (`response.data || []`). */
    method FetchData(temasReply: Reply<seq<TemaRef>>, actividadesReply: Reply<seq<Actividad>>)
      modifies this
      ensures temas == RowsOrEmpty(temasReply)
      ensures actividades == WithTemas(RowsOrEmpty(actividadesReply), RowsOrEmpty(temasReply))
      ensures FormUnchanged()
    {
      var temasList := RowsOrEmpty(temasReply);
      temas := temasList;
      actividades := WithTemas(RowsOrEmpty(actividadesReply), temasList);
    }

    /** The topic drop-down's `onChange`: the first topic with the chosen
        id, or nothing. */
    method SelectTema(temaId: int)
      modifies this
      ensures selectedTema == Resolver.Find(temas, TemaId, temaId)
      ensures actividades == old(actividades) && temas == old(temas)
      ensures descripcion == old(descripcion) && estado == old(estado)
      ensures editMode == old(editMode) && editActividadId == old(editActividadId)
    {
      selectedTema := Resolver.Find(temas, TemaId, temaId);
    }

    /** The status drop-down's `onChange`, which can only report one of its
        options. */
    method SelectEstado(value: string)
      requires value in EstadoOptions
      modifies this
      ensures estado == value && EstadoValid()
      ensures actividades == old(actividades) && temas == old(temas)
      ensures descripcion == old(descripcion) && selectedTema == old(selectedTema)
      ensures editMode == old(editMode) && editActividadId == old(editActividadId)
    {
      estado := value;
    }

    /** What `handleSubmit` does, given the reply to the insert it sends
        when it takes the add path. The update's reply is never read, so
        the edit path does not depend on it. An answer to the insert without
        data makes `data[0]` throw inside the `try`, so it changes nothing. */
    twostate predicate SubmitDone(insertReply: Reply<Option<Actividad>>, new request: Option<Request>)
      reads this
    {
      var proceeds := !Blank(old(descripcion)) && old(selectedTema).Some?;
      var editing := old(editMode) && Truthy(old(editActividadId));
      && temas == old(temas)
      && if !proceeds then
           request == None && actividades == old(actividades) && FormUnchanged()
         else if editing then
           && request == Some(Update(old(editActividadId).value, old(descripcion), old(estado),
                                     old(selectedTema).value.temaid))
           && actividades == Revised(old(actividades), old(editActividadId).value, old(descripcion), old(estado),
                                     Resolver.Find(old(temas), TemaId, old(selectedTema).value.temaid))
           && FormReset() && !editMode && editActividadId == None
         else
           && request == Some(Insert(old(descripcion), old(estado), old(selectedTema).value.temaid))
           && editMode == old(editMode) && editActividadId == old(editActividadId)
           && if insertReply.Ok? && insertReply.data.Some? then
                actividades == old(actividades) + [ActividadView(insertReply.data.value, old(selectedTema))] &&
                FormReset()
              else
                actividades == old(actividades) && FormUnchanged()
    }

    /** `handleSubmit`: takes the edit path on `editMode && editActividadId`,
        the add path otherwise. */
    method Submit(insertReply: Reply<Option<Actividad>>) returns (request: Option<Request>)
      modifies this
      ensures SubmitDone(insertReply, request)
      ensures old(EstadoValid()) ==> EstadoValid()
    {
      if Blank(descripcion) || selectedTema.None? {
        return None;
      }
      var tema := selectedTema.value;
      if editMode && Truthy(editActividadId) {
        var id := editActividadId.value;
        request := Some(Update(id, descripcion, estado, tema.temaid));
        editMode := false;
        editActividadId := None;
        actividades := Revised(actividades, id, descripcion, estado, Resolver.Find(temas, TemaId, tema.temaid));
      } else {
        request := Some(Insert(descripcion, estado, tema.temaid));
        if insertReply.Err? || insertReply.data.None? {
          return;
        }
        actividades := actividades + [ActividadView(insertReply.data.value, selectedTema)];
      }
      descripcion := "";
      estado := "Pendiente";
      selectedTema := None;
    }

    /** `deleteActividad`: the reply of the delete is awaited but never read,
        so the activity is filtered out whatever the gateway answered. */
    method DeleteActividad(actividadId: int, reply: Outcome) returns (request: Request)
      modifies this
      ensures request == Delete(actividadId)
      ensures actividades == Mirror.Remove(old(actividades), ActividadId, actividadId)
      ensures temas == old(temas) && FormUnchanged()
    {
      request := Delete(actividadId);
      actividades := Mirror.Remove(actividades, ActividadId, actividadId);
    }

    /** `handleEdit`: enters the edit session on `actividad`, copying its
        description and status and preselecting the first topic with the
        row's `temaid`, or nothing. */
    method HandleEdit(actividad: ActividadView)
      modifies this
      ensures editMode && editActividadId == Some(actividad.row.actividadid)
      ensures descripcion == actividad.row.descripcion && estado == actividad.row.estado
      ensures selectedTema == Resolver.Find(temas, TemaId, actividad.row.temaid)
      ensures EstadoValid() <==> actividad.row.estado in EstadoOptions
      ensures actividades == old(actividades) && temas == old(temas)
    {
      editMode := true;
      editActividadId := Some(actividad.row.actividadid);
      descripcion := actividad.row.descripcion;
      estado := actividad.row.estado;
      selectedTema := Resolver.Find(temas, TemaId, actividad.row.temaid);
    }
  }
}
