/** The `tareas` screen: tasks with the title of their topic, a notes field, two
    check boxes, a topic drop-down and an edit session. */
module Tareas {
  import opened Js
  import opened Gateway
  import opened Schema
  import Resolver
  import Mirror

  /** A record of the `tareas` list: the row, the topic title added by the
      join, and the camelCase keys `claseImpartida`/`actividadPendiente`
      that only an edit adds (`None` while the key is missing). The table
      renders the row's lowercase `claseimpartida`/`actividadpendiente`. */
  datatype TareaView = TareaView(row: Tarea, temaTitulo: string,
                                 claseImpartida: Option<bool>, actividadPendiente: Option<bool>)

  /** The calls this screen makes to the gateway. */
  datatype Request =
    | Insert(observaciones: string, claseimpartida: bool, actividadpendiente: bool, temaid: int)
    | Update(tareaid: int, observaciones: string, claseimpartida: bool, actividadpendiente: bool, temaid: int)
    | Delete(tareaid: int)

  function TareaId(t: TareaView): int { t.row.tareaid }
  function TemaId(t: TemaRef): int { t.temaid }

  /** One row of the fetch joined with the answer to its per-row query
      `select titulo from temas where temaid = tarea.temaid` (`.single()`). */
  function JoinTitulo(lookup: int -> Reply<string>): Tarea -> Reply<TareaView>
  {
    (t: Tarea) => match lookup(t.temaid)
                  case Err => Err
                  case Ok(titulo) => Ok(TareaView(t, titulo, None, None))
  }

  /** The join of `fetchTareas`: one view per task, in fetch order, keeping
      the row and carrying the title the gateway gave for its `temaid`;
      one failed per-row query fails the whole join. */
  function WithTemaTitulos(tareas: seq<Tarea>, lookup: int -> Reply<string>): (r: Reply<seq<TareaView>>)
    ensures r.Ok? <==> forall i :: 0 <= i < |tareas| ==> lookup(tareas[i].temaid).Ok?
    ensures r.Ok? ==> |r.data| == |tareas|
    ensures r.Ok? ==> forall i :: 0 <= i < |tareas| ==>
              r.data[i] == TareaView(tareas[i], lookup(tareas[i].temaid).data, None, None)
  {
    var q := JoinTitulo(lookup);
    var r := AllOrNothing(tareas, q);
    assert forall i :: 0 <= i < |tareas| ==> (q(tareas[i]).Ok? <==> lookup(tareas[i].temaid).Ok?);
    r
  }

  /** The list after a successful update of task `k` (the `map` of
      `updateTarea`): only that record changes; it takes the new notes and
      topic title and gains the camelCase keys, while the lowercase flags
      the table renders, the `temaid` and the id stay as they were. */
  function Edited(tareas: seq<TareaView>, k: int, observaciones: string, clase: bool, pendiente: bool,
                  temaTitulo: string): (r: seq<TareaView>)
    ensures |r| == |tareas|
    ensures forall i :: 0 <= i < |tareas| && tareas[i].row.tareaid == k ==>
              && r[i].row == tareas[i].row.(observaciones := observaciones)
              && r[i].temaTitulo == temaTitulo
              && r[i].claseImpartida == Some(clase) && r[i].actividadPendiente == Some(pendiente)
    ensures forall i :: 0 <= i < |tareas| && tareas[i].row.tareaid != k ==> r[i] == tareas[i]
  {
    Mirror.Replace(tareas, TareaId, k,
      (t: TareaView) => t.(row := t.row.(observaciones := observaciones), temaTitulo := temaTitulo,
                           claseImpartida := Some(clase), actividadPendiente := Some(pendiente)))
  }

  /** What the table shows for each task after an edit: the check boxes
      are read from the lowercase keys, so they show the values from before
      the edit whatever was submitted. */
  lemma EditedKeepsRenderedFlags(tareas: seq<TareaView>, k: int, observaciones: string, clase: bool,
                                 pendiente: bool, temaTitulo: string)
    ensures forall i :: 0 <= i < |tareas| ==>
              var e := Edited(tareas, k, observaciones, clase, pendiente, temaTitulo)[i];
              e.row.claseimpartida == tareas[i].row.claseimpartida &&
              e.row.actividadpendiente == tareas[i].row.actividadpendiente &&
              e.row.temaid == tareas[i].row.temaid
  {
  }

  class TareaManager {
    var tareas: seq<TareaView>
    var observaciones: string
    var claseImpartida: bool
    var actividadPendiente: bool
    var temas: seq<TemaRef>
    var selectedTema: Option<TemaRef>
    var editMode: bool
    var editTareaId: Option<int>

    /** The screen as first rendered. */
    constructor ()
      ensures tareas == [] && observaciones == "" && !claseImpartida && !actividadPendiente
      ensures temas == [] && selectedTema == None && !editMode && editTareaId == None
    {
      tareas, observaciones, claseImpartida, actividadPendiente := [], "", false, false;
      temas, selectedTema, editMode, editTareaId := [], None, false, None;
    }

    /** The form fields are as they were. */
    twostate predicate FormUnchanged()
      reads this
    {
      observaciones == old(observaciones) && claseImpartida == old(claseImpartida) &&
      actividadPendiente == old(actividadPendiente) && selectedTema == old(selectedTema)
    }

    /** The form is back to its defaults. */
    predicate FormReset()
      reads this
    {
      observaciones == "" && !claseImpartida && !actividadPendiente && selectedTema == None
    }

    /** `fetchTareas`: the fetched tasks, each with its topic title, replace the list;
        an error of the `tareas` query or of any per-row topic query leaves it. */
    method FetchTareas(reply: Reply<seq<Tarea>>, lookup: int -> Reply<string>)
      modifies this
      ensures reply.Ok? && WithTemaTitulos(reply.data, lookup).Ok? ==>
                tareas == WithTemaTitulos(reply.data, lookup).data
      ensures !(reply.Ok? && WithTemaTitulos(reply.data, lookup).Ok?) ==> tareas == old(tareas)
      ensures temas == old(temas) && FormUnchanged()
      ensures editMode == old(editMode) && editTareaId == old(editTareaId)
    {
      if reply.Err? {
        return;
      }
      var joined := WithTemaTitulos(reply.data, lookup);
      if joined.Ok? {
        tareas := joined.data;
      }
    }

    /** `fetchTemas`: the topics offered by the drop-down. */
    method FetchTemas(reply: Reply<seq<TemaRef>>)
      modifies this
      ensures temas == (if reply.Ok? then reply.data else old(temas))
      ensures tareas == old(tareas) && FormUnchanged()
      ensures editMode == old(editMode) && editTareaId == old(editTareaId)
    {
      if reply.Ok? {
        temas := reply.data;
      }
    }

    /** The drop-down's `onChange`: the first topic with the chosen id, or
        nothing. */
    method SelectTema(temaId: int)
      modifies this
      ensures selectedTema == Resolver.Find(temas, TemaId, temaId)
      ensures tareas == old(tareas) && temas == old(temas) && observaciones == old(observaciones)
      ensures claseImpartida == old(claseImpartida) && actividadPendiente == old(actividadPendiente)
      ensures editMode == old(editMode) && editTareaId == old(editTareaId)
    {
      selectedTema := Resolver.Find(temas, TemaId, temaId);
    }

    /** The "clase impartida" check box's `onChange`: the flag is flipped. */
    method ToggleClaseImpartida()
      modifies this
      ensures claseImpartida == !old(claseImpartida)
      ensures tareas == old(tareas) && temas == old(temas) && observaciones == old(observaciones)
      ensures actividadPendiente == old(actividadPendiente) && selectedTema == old(selectedTema)
      ensures editMode == old(editMode) && editTareaId == old(editTareaId)
    {
      claseImpartida := !claseImpartida;
    }

    /** The "actividad pendiente" check box's `onChange`: the flag is flipped. */
    method ToggleActividadPendiente()
      modifies this
      ensures actividadPendiente == !old(actividadPendiente)
      ensures tareas == old(tareas) && temas == old(temas) && observaciones == old(observaciones)
      ensures claseImpartida == old(claseImpartida) && selectedTema == old(selectedTema)
      ensures editMode == old(editMode) && editTareaId == old(editTareaId)
    {
      actividadPendiente := !actividadPendiente;
    }

    /** What `addTarea` does, given the reply to its insert. */
    twostate predicate AddTareaDone(reply: Reply<Option<Tarea>>, new request: Option<Request>)
      reads this
    {
      var proceeds := !Blank(old(observaciones)) && old(selectedTema).Some?;
      && request == (if proceeds
                     then Some(Insert(old(observaciones), old(claseImpartida), old(actividadPendiente),
                                      old(selectedTema).value.temaid))
                     else None)
      && temas == old(temas) && editMode == old(editMode) && editTareaId == old(editTareaId)
      && if proceeds && reply.Ok? && reply.data.Some? then
           tareas == old(tareas) + [TareaView(reply.data.value, old(selectedTema).value.titulo, None, None)] &&
           FormReset()
         else
           tareas == old(tareas) && FormUnchanged()
    }

    /** `addTarea`. */
    method AddTarea(reply: Reply<Option<Tarea>>) returns (request: Option<Request>)
      modifies this
      ensures AddTareaDone(reply, request)
    {
      if Blank(observaciones) || selectedTema.None? {
        return None;
      }
      request := Some(Insert(observaciones, claseImpartida, actividadPendiente, selectedTema.value.temaid));
      if reply.Err? || reply.data.None? {
        return;
      }
      tareas := tareas + [TareaView(reply.data.value, selectedTema.value.titulo, None, None)];
      observaciones := "";
      claseImpartida := false;
      actividadPendiente := false;
      selectedTema := None;
    }

    /** What `updateTarea` does, given the reply to its update. The request
        carries the lowercase columns; the local record gets camelCase keys. */
    twostate predicate UpdateTareaDone(reply: Outcome, new request: Option<Request>)
      reads this
    {
      var proceeds := !Blank(old(observaciones)) && old(selectedTema).Some? && Truthy(old(editTareaId));
      && request == (if proceeds
                     then Some(Update(old(editTareaId).value, old(observaciones), old(claseImpartida),
                                      old(actividadPendiente), old(selectedTema).value.temaid))
                     else None)
      && temas == old(temas)
      && if proceeds && reply.Succeeded? then
           && tareas == Edited(old(tareas), old(editTareaId).value, old(observaciones), old(claseImpartida),
                               old(actividadPendiente), old(selectedTema).value.titulo)
           && FormReset() && !editMode && editTareaId == None
         else
           tareas == old(tareas) && FormUnchanged() && editMode == old(editMode) && editTareaId == old(editTareaId)
    }

    /** `updateTarea`. */
    method UpdateTarea(reply: Outcome) returns (request: Option<Request>)
      modifies this
      ensures UpdateTareaDone(reply, request)
    {
      if Blank(observaciones) || selectedTema.None? || !Truthy(editTareaId) {
        return None;
      }
      var id, tema := editTareaId.value, selectedTema.value;
      request := Some(Update(id, observaciones, claseImpartida, actividadPendiente, tema.temaid));
      if reply.Failed? {
        return;
      }
      editMode := false;
      editTareaId := None;
      tareas := Edited(tareas, id, observaciones, claseImpartida, actividadPendiente, tema.titulo);
      observaciones := "";
      claseImpartida := false;
      actividadPendiente := false;
      selectedTema := None;
    }

    /** `deleteTarea`: the record leaves the list only when the gateway reports
        no error. */
    method DeleteTarea(tareaId: int, reply: Outcome) returns (request: Request)
      modifies this
      ensures request == Delete(tareaId)
      ensures tareas == (if reply.Succeeded? then Mirror.Remove(old(tareas), TareaId, tareaId) else old(tareas))
      ensures temas == old(temas) && FormUnchanged()
      ensures editMode == old(editMode) && editTareaId == old(editTareaId)
    {
      request := Delete(tareaId);
      if reply.Succeeded? {
        tareas := Mirror.Remove(tareas, TareaId, tareaId);
      }
    }

    /** `handleEdit`: enters the edit session on `tarea`, loading the form
        from the row's lowercase fields and preselecting the first topic
        with the row's `temaid`, or nothing. */
    method HandleEdit(tarea: TareaView)
      modifies this
      ensures editMode && editTareaId == Some(tarea.row.tareaid)
      ensures observaciones == tarea.row.observaciones
      ensures claseImpartida == tarea.row.claseimpartida && actividadPendiente == tarea.row.actividadpendiente
      ensures selectedTema == Resolver.Find(temas, TemaId, tarea.row.temaid)
      ensures tareas == old(tareas) && temas == old(temas)
    {
      editMode := true;
      editTareaId := Some(tarea.row.tareaid);
      observaciones := tarea.row.observaciones;
      claseImpartida := tarea.row.claseimpartida;
      actividadPendiente := tarea.row.actividadpendiente;
      selectedTema := Resolver.Find(temas, TemaId, tarea.row.temaid);
    }

    /** The form's submit handler: `editMode ? updateTarea() : addTarea()`. */
    method Submit(insertReply: Reply<Option<Tarea>>, updateReply: Outcome) returns (request: Option<Request>)
      modifies this
      ensures old(editMode) ==> UpdateTareaDone(updateReply, request)
      ensures !old(editMode) ==> AddTareaDone(insertReply, request)
    {
      if editMode {
        request := UpdateTarea(updateReply);
      } else {
        request := AddTarea(insertReply);
      }
    }
  }
}
