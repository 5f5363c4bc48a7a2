/** The job history table, written in place, and the queue page's listing of it. */
module HistoryStore {
  import opened Common
  import opened Jobs
  import opened History

  class JobHistory {
    /** By row id: a new row gets the highest one. */
    var rows: seq<Row>

    constructor ()
      ensures rows == [] && DistinctKeys(rows)
    {
      rows := [];
    }

    method Find(id: JobId) returns (at: Option<nat>)
      ensures at == if IndexOf(rows, Uuid(id)) == |rows| then None else Some(IndexOf(rows, Uuid(id)))
      ensures at.Some? ==> at.value < |rows| && rows[at.value].key == Uuid(id)
      ensures at.None? ==> forall r :: r in rows ==> r.key != Uuid(id)
    {
      for i := 0 to |rows|
        invariant forall j :: 0 <= j < i ==> rows[j].key != Uuid(id)
      {
        if rows[i].key == Uuid(id) { return Some(i); }
      }
      return None;
    }

    /** Upsert: one row per job, its path, status, kind and priority taken from the job. */
    method RecordJobHistory(id: JobId, job: Job)
      requires DistinctKeys(rows)
      modifies this
      ensures DistinctKeys(rows) && rows == Record(old(rows), id, job)
      ensures forall r :: r in rows <==>
                r == Row(Uuid(id), job.path, job.kind, job.priority, job.status)
                || (r in old(rows) && r.key != Uuid(id))
      ensures |old(rows)| <= |rows| && forall k :: 0 <= k < |old(rows)| ==> rows[k].key == old(rows)[k].key
    {
      RecordMembers(rows, id, job);
      var at := Find(id);
      if at.None? {
        rows := rows + [RowOf(id, job)];
      } else {
        rows := rows[at.value := rows[at.value].(path := job.path, status := job.status, kind := job.kind,
            priority := job.priority)];
      }
    }

    method DeleteJobHistory(id: JobId) returns (found: bool)
      requires DistinctKeys(rows)
      modifies this
      ensures DistinctKeys(rows) && (rows, found) == Delete(old(rows), id)
      ensures found <==> exists r :: r in old(rows) && r.key == Uuid(id)
      ensures forall r :: r in rows <==> r in old(rows) && r.key != Uuid(id)
      ensures !found ==> rows == old(rows)
      ensures found ==> exists k :: 0 <= k < |old(rows)| && rows == old(rows)[..k] + old(rows)[k + 1..]
    {
      DeleteMembers(rows, id);
      var at := Find(id);
      found := at.Some?;
      if found { rows := rows[..at.value] + rows[at.value + 1..]; }
    }
  }
}
