/** The topic list screen: reads the capitalised `Temas` table (columns
    `TemaID`, `Titulo`) and deletes from it. */
module TaskList {
  import opened Gateway
  import Mirror

  /** A row of `Temas` as this screen uses it. */
  datatype TemaRecord = TemaRecord(TemaID: int, Titulo: string)

  /** The one call this screen makes to the gateway besides its fetch:
      `delete().eq('TemaID', id)`. */
  datatype Request = Delete(TemaID: int)

  function TemaId(t: TemaRecord): int { t.TemaID }

  /** The local filter of `deleteTema`: `temas.filter(tema => tema.TemaID !== id)`.
      No record with the id is left, and every other record is kept. */
  function WithoutTema(temas: seq<TemaRecord>, id: int): (r: seq<TemaRecord>)
    ensures forall i :: 0 <= i < |r| ==> r[i].TemaID != id
    ensures forall i :: 0 <= i < |temas| && temas[i].TemaID != id ==> temas[i] in r
    ensures multiset(r) <= multiset(temas)
  {
    Mirror.Remove(temas, TemaId, id)
  }

  /** The records that are kept keep their relative order: deleting from a
      list split in two deletes from each part. */
  lemma WithoutTemaKeepsOrder(a: seq<TemaRecord>, b: seq<TemaRecord>, id: int)
    ensures WithoutTema(a + b, id) == WithoutTema(a, id) + WithoutTema(b, id)
  {
    Mirror.RemoveConcat(a, b, TemaId, id);
  }

  /** Deleting an id no record carries leaves the list unchanged, and
      deleting twice is deleting once. */
  lemma WithoutTemaAbsentAndTwice(temas: seq<TemaRecord>, id: int)
    ensures (forall i :: 0 <= i < |temas| ==> temas[i].TemaID != id) ==> WithoutTema(temas, id) == temas
    ensures WithoutTema(WithoutTema(temas, id), id) == WithoutTema(temas, id)
  {
    if forall i :: 0 <= i < |temas| ==> temas[i].TemaID != id {
      Mirror.RemoveAbsent(temas, TemaId, id);
    }
    Mirror.RemoveIdempotent(temas, TemaId, id);
  }

  class TaskListScreen {
    var temas: seq<TemaRecord>

    /** The screen as first rendered. */
    constructor ()
      ensures temas == []
    {
      temas := [];
    }

    /** `fetchTemas`: the rows replace the list; an error leaves it. */
    method FetchTemas(reply: Reply<seq<TemaRecord>>)
      modifies this
      ensures temas == (if reply.Ok? then reply.data else old(temas))
    {
      if reply.Ok? {
        temas := reply.data;
      }
    }

    /** `deleteTema`: the reply of the delete is awaited but never read, so
        the record is filtered out whatever the gateway answered. */
    method DeleteTema(id: int, reply: Outcome) returns (request: Request)
      modifies this
      ensures request == Delete(id)
      ensures temas == WithoutTema(old(temas), id)
    {
      request := Delete(id);
      temas := WithoutTema(temas, id);
    }
  }
}
