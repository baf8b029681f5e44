/**
 * The in-memory job registry (api/internal/cache.py): a module-level
 * dictionary from job id to job record, which `add_job` and
 * `update_job_status` change in place.
 */
module JobCache {
  import opened Common
  import opened Jobs

  /** The record `add_job` stores: no project id and no message. */
  function NewJob(id: string, clusterName: string, jobType: string, status: string): (j: Job)
    ensures j.name == id && j.message.None? && j.projectId.None?
  {
    Job(id, clusterName, jobType, status, None, None)
  }

  /** The module's `jobs` dictionary. */
  class Cache {
    var jobs: map<string, Job>

    /** The dictionary starts empty. */
    constructor ()
      ensures jobs == map[] && Keyed()
    {
      jobs := map[];
    }

    /** Every record is filed under its own id, as `add_job` files it. */
    predicate Keyed()
      reads this
    {
      forall id :: id in jobs ==> jobs[id].name == id
    }

    /** check_job: the id is a key of the dictionary. */
    predicate CheckJob(id: string)
      reads this
    {
      id in jobs
    }

    /** get_job: the stored record; an unknown id raises a key error. */
    function GetJob(id: string): (r: Result<Job>)
      reads this
      ensures r.Ok? <==> CheckJob(id)
      ensures r.Ok? ==> r.value == jobs[id]
      ensures r.Err? ==> r.error == KeyError(id)
    {
      if id in jobs then Ok(jobs[id]) else Err(KeyError(id))
    }

    /**
     * add_job: a fresh record under the id, replacing any earlier one; no
     * other entry changes.
     */
    method AddJob(id: string, clusterName: string, jobType: string, status: string)
      modifies this
      ensures jobs == old(jobs)[id := NewJob(id, clusterName, jobType, status)]
      ensures GetJob(id) == Ok(NewJob(id, clusterName, jobType, status))
      ensures forall other :: other != id ==> GetJob(other) == old(GetJob(other))
      ensures old(Keyed()) ==> Keyed()
    {
      jobs := jobs[id := NewJob(id, clusterName, jobType, status)];
    }

    /**
     * update_job_status: an unknown id raises a key error and changes
     * nothing; otherwise only that job's status, and its message when the
     * given one is truthy, change.
     */
    method UpdateJobStatus(id: string, status: string, message: Option<string>) returns (r: Result<Unit>)
      modifies this
      ensures r.Ok? <==> old(CheckJob(id))
      ensures r.Err? ==> r == Err(KeyError(id)) && jobs == old(jobs)
      ensures r.Ok? ==> jobs == old(jobs)[id := WithStatus(old(jobs)[id], status, message)]
      ensures jobs.Keys == old(jobs).Keys
      ensures r.Ok? ==> GetJob(id).Ok? && GetJob(id).value.status == status
      ensures old(Keyed()) ==> Keyed()
    {
      if id !in jobs {
        return Err(KeyError(id));
      }
      jobs := jobs[id := WithStatus(jobs[id], status, message)];
      return Ok(Unit);
    }
  }
}
