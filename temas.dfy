/** The topic screen: the list of topics with their teacher, a title field,
    a teacher drop-down and an edit session. */
module Temas {
  import opened Js
  import opened Gateway
  import opened Schema
  import Resolver
  import Mirror

  /** A topic as the fetch returns it: `temaid, titulo` and the teacher
      embedded by the join `docente:docentes(docenteid, nombre)`; `None`
      when the join found no teacher. */
  datatype FetchedTema = FetchedTema(temaid: int, titulo: string, docente: Option<DocenteRef>)

  /** A record of the `temas` list. Which keys it has depends on where it came
      from: a fetched topic has `docente` but no `docenteid`; an inserted
      one is the bare row, with `docenteid` and no `docente`; an edited one
      gains `docenteid` and keeps its `docente`. A missing key is `None`
      (for `docente`, `null` and missing read the same). */
  datatype TemaView = TemaView(temaid: int, titulo: string, docenteid: Option<int>, docente: Option<DocenteRef>)

  /** The calls this screen makes to the gateway. */
  datatype Request =
    | Insert(titulo: string, docenteid: int)
    | Update(temaid: int, titulo: string, docenteid: int)
    | Delete(temaid: int)

  function TemaId(t: TemaView): int { t.temaid }
  function DocenteId(d: DocenteRef): int { d.docenteid }

  function FromFetched(t: FetchedTema): TemaView
  {
    TemaView(t.temaid, t.titulo, None, t.docente)
  }

  function FromInserted(t: Tema): TemaView
  {
    TemaView(t.temaid, t.titulo, Some(t.docenteid), None)
  }

  /** The teacher column: `tema.docente ? tema.docente.nombre : 'N/A'`. */
  function DocenteLabel(t: TemaView): string
  {
    if t.docente.Some? then t.docente.value.nombre else "N/A"
  }

  /** The list after a successful update of topic `k`:
      `temas.map(tema => tema.temaid === k ? { ...tema, titulo, docenteid } : tema)`.
      Only that record changes, and only in its title and `docenteid`; its
      embedded `docente` object stays as it was. */
  function Retitled(temas: seq<TemaView>, k: int, titulo: string, docenteid: int): (r: seq<TemaView>)
    ensures |r| == |temas|
    ensures forall i :: 0 <= i < |temas| && temas[i].temaid == k ==>
              r[i].temaid == k && r[i].titulo == titulo && r[i].docenteid == Some(docenteid) &&
              r[i].docente == temas[i].docente
    ensures forall i :: 0 <= i < |temas| && temas[i].temaid != k ==> r[i] == temas[i]
  {
    Mirror.Replace(temas, TemaId, k, (t: TemaView) => t.(titulo := titulo, docenteid := Some(docenteid)))
  }

  /** The teacher shown for every topic is the same after an update, even
      for the topic whose teacher was changed: the label reads the embedded
      object, which the update does not touch. */
  lemma RetitledKeepsDocenteLabels(temas: seq<TemaView>, k: int, titulo: string, docenteid: int)
    ensures forall i :: 0 <= i < |temas| ==>
              DocenteLabel(Retitled(temas, k, titulo, docenteid)[i]) == DocenteLabel(temas[i])
  {
  }

  /** A topic appended after an insert shows "N/A" as its teacher, and a
      fetched one shows the embedded teacher's name when the join found one. */
  lemma DocenteLabelBySource(inserted: Tema, fetched: FetchedTema)
    ensures DocenteLabel(FromInserted(inserted)) == "N/A"
    ensures fetched.docente.Some? ==> DocenteLabel(FromFetched(fetched)) == fetched.docente.value.nombre
    ensures fetched.docente.None? ==> DocenteLabel(FromFetched(fetched)) == "N/A"
  {
  }

  class TemaManager {
    var temas: seq<TemaView>
    var titulo: string
    var docentes: seq<DocenteRef>
    var selectedDocente: Option<DocenteRef>
    var editMode: bool
    var editTemaId: Option<int>

    /** The screen as first rendered. */
    constructor ()
      ensures temas == [] && titulo == "" && docentes == [] && selectedDocente == None
      ensures !editMode && editTemaId == None
    {
      temas, titulo, docentes, selectedDocente := [], "", [], None;
      editMode, editTemaId := false, None;
    }

    /** The form fields and the edit session are as they were. */
    twostate predicate FormUnchanged()
      reads this
    {
      titulo == old(titulo) && selectedDocente == old(selectedDocente) &&
      editMode == old(editMode) && editTemaId == old(editTemaId)
    }

    /** `fetchTemas`: the fetched topics replace the list; an error leaves it. */
    method FetchTemas(reply: Reply<seq<FetchedTema>>)
      modifies this
      ensures temas == (if reply.Ok? then seq(|reply.data|, i requires 0 <= i < |reply.data| => FromFetched(reply.data[i]))
                        else old(temas))
      ensures docentes == old(docentes) && FormUnchanged()
    {
      if reply.Ok? {
        temas := seq(|reply.data|, i requires 0 <= i < |reply.data| => FromFetched(reply.data[i]));
      }
    }

    /** `fetchDocentes`: the teachers offered by the drop-down. */
    method FetchDocentes(reply: Reply<seq<DocenteRef>>)
      modifies this
      ensures docentes == (if reply.Ok? then reply.data else old(docentes))
      ensures temas == old(temas) && FormUnchanged()
    {
      if reply.Ok? {
        docentes := reply.data;
      }
    }

    /** The drop-down's `onChange`: the first teacher with the chosen id, or
        nothing. */
    method SelectDocente(docenteId: int)
      modifies this
      ensures selectedDocente == Resolver.Find(docentes, DocenteId, docenteId)
      ensures temas == old(temas) && docentes == old(docentes) && titulo == old(titulo)
      ensures editMode == old(editMode) && editTemaId == old(editTemaId)
    {
      selectedDocente := Resolver.Find(docentes, DocenteId, docenteId);
    }

    /** What `addTema` does, given the reply to its insert. An answer without
        data makes `data[0]` throw inside the `try`, so it changes nothing. */
    twostate predicate AddTemaDone(reply: Reply<Option<Tema>>, new request: Option<Request>)
      reads this
    {
      var proceeds := !Blank(old(titulo)) && old(selectedDocente).Some?;
      && request == (if proceeds then Some(Insert(old(titulo), old(selectedDocente).value.docenteid)) else None)
      && docentes == old(docentes) && editMode == old(editMode) && editTemaId == old(editTemaId)
      && if proceeds && reply.Ok? && reply.data.Some? then
           temas == old(temas) + [FromInserted(reply.data.value)] && titulo == "" && selectedDocente == None
         else
           temas == old(temas) && titulo == old(titulo) && selectedDocente == old(selectedDocente)
    }

    /** `addTema`. */
    method AddTema(reply: Reply<Option<Tema>>) returns (request: Option<Request>)
      modifies this
      ensures AddTemaDone(reply, request)
    {
      if Blank(titulo) || selectedDocente.None? {
        return None;
      }
      request := Some(Insert(titulo, selectedDocente.value.docenteid));
      if reply.Err? || reply.data.None? {
        return;
      }
      temas := temas + [FromInserted(reply.data.value)];
      titulo := "";
      selectedDocente := None;
    }

    /** What `updateTema` does, given the reply to its update. */
    twostate predicate UpdateTemaDone(reply: Outcome, new request: Option<Request>)
      reads this
    {
      var proceeds := !Blank(old(titulo)) && old(selectedDocente).Some? && Truthy(old(editTemaId));
      && request == (if proceeds then Some(Update(old(editTemaId).value, old(titulo), old(selectedDocente).value.docenteid))
                     else None)
      && docentes == old(docentes)
      && if proceeds && reply.Succeeded? then
           && temas == Retitled(old(temas), old(editTemaId).value, old(titulo), old(selectedDocente).value.docenteid)
           && titulo == "" && selectedDocente == None && !editMode && editTemaId == None
         else
           temas == old(temas) && FormUnchanged()
    }

    /** `updateTema`. */
    method UpdateTema(reply: Outcome) returns (request: Option<Request>)
      modifies this
      ensures UpdateTemaDone(reply, request)
    {
      if Blank(titulo) || selectedDocente.None? || !Truthy(editTemaId) {
        return None;
      }
      var id, docenteid := editTemaId.value, selectedDocente.value.docenteid;
      request := Some(Update(id, titulo, docenteid));
      if reply.Failed? {
        return;
      }
      editMode := false;
      editTemaId := None;
      temas := Retitled(temas, id, titulo, docenteid);
      titulo := "";
      selectedDocente := None;
    }

    /** `deleteTema`: the topic leaves the list only when the gateway reports
        no error. */
    method DeleteTema(temaId: int, reply: Outcome) returns (request: Request)
      modifies this
      ensures request == Delete(temaId)
      ensures temas == (if reply.Succeeded? then Mirror.Remove(old(temas), TemaId, temaId) else old(temas))
      ensures docentes == old(docentes) && FormUnchanged()
    {
      request := Delete(temaId);
      if reply.Succeeded? {
        temas := Mirror.Remove(temas, TemaId, temaId);
      }
    }

    /** `handleEdit`: enters the edit session on `tema` and preselects the
        first teacher whose id is that of the embedded `docente`. The id
        `tema.docente.docenteid` is read inside the `find` callback, so for a
        record without `docente` (a topic appended after an insert, or one
        whose join found none) it throws as soon as `find` visits a teacher:
        the three setters before it have already run, the teacher selection
        is left as it was, and `uncaught` reports the TypeError that escapes
        the handler. With no teachers loaded the callback never runs and the
        selection becomes `undefined`. */
    method HandleEdit(tema: TemaView) returns (uncaught: bool)
      modifies this
      ensures editMode && editTemaId == Some(tema.temaid) && titulo == tema.titulo
      ensures uncaught == (tema.docente.None? && docentes != [])
      ensures selectedDocente == (if tema.docente.Some?
                                  then Resolver.Find(docentes, DocenteId, tema.docente.value.docenteid)
                                  else if docentes == [] then None
                                  else old(selectedDocente))
      ensures temas == old(temas) && docentes == old(docentes)
    {
      editMode := true;
      editTemaId := Some(tema.temaid);
      titulo := tema.titulo;
      if tema.docente.None? {
        if docentes != [] {
          return true;
        }
        selectedDocente := None;
        return false;
      }
      selectedDocente := Resolver.Find(docentes, DocenteId, tema.docente.value.docenteid);
      uncaught := false;
    }

    /** The form's submit handler: `editMode ? updateTema() : addTema()`. */
    method Submit(insertReply: Reply<Option<Tema>>, updateReply: Outcome) returns (request: Option<Request>)
      modifies this
      ensures old(editMode) ==> UpdateTemaDone(updateReply, request)
      ensures !old(editMode) ==> AddTemaDone(insertReply, request)
    {
      if editMode {
        request := UpdateTema(updateReply);
      } else {
        request := AddTema(insertReply);
      }
    }
  }
}
