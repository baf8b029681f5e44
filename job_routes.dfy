/**
 * The job routes (api/routes/job.py): the job list with its four optional
 * filters, and the lookup of one job. Both answer from the store-backed
 * registry.
 */
module JobRoutes {
  import opened Common
  import opened Jobs
  import JobStore

  /** The record fields the list filters compare. */
  datatype Field = Status | Type | ClusterName | ProjectId

  /** `job[key]`: only the project id can be absent from a record. */
  function FieldOf(j: Job, f: Field): Option<string> {
    match f
    case Status => Some(j.status)
    case Type => Some(j.jobType)
    case ClusterName => Some(j.clusterName)
    case ProjectId => j.projectId
  }

  function KeyOf(f: Field): string {
    match f
    case Status => "status"
    case Type => "type"
    case ClusterName => "cluster_name"
    case ProjectId => "project-id"
  }

  /**
   * `list(filter(lambda job: job[key] == value, jobs))`: the jobs whose
   * field equals the value, in order; a job without the field raises a key
   * error.
   */
  function Keep(jobs: seq<Job>, f: Field, value: string): (r: Result<seq<Job>>)
    ensures r.Err? ==> r.error == KeyError(KeyOf(f))
  {
    if jobs == [] then Ok([])
    else if FieldOf(jobs[0], f).None? then Err(KeyError(KeyOf(f)))
    else
      var rest :- Keep(jobs[1..], f, value);
      Ok((if FieldOf(jobs[0], f) == Some(value) then [jobs[0]] else []) + rest)
  }

  /** `if value:` a falsy filter value leaves the list as it is. */
  function Step(jobs: seq<Job>, f: Field, value: Option<string>): Result<seq<Job>> {
    if Truthy(value) then Keep(jobs, f, value.value) else Ok(jobs)
  }

  /** The list route's query arguments; each may be absent. */
  datatype Query = Query(status: Option<string>, jobType: Option<string>, clusterName: Option<string>, projectId: Option<string>)

  const NoFilter := Query(None, None, None, None)

  function Slot(q: Query, f: Field): Option<string> {
    match f
    case Status => q.status
    case Type => q.jobType
    case ClusterName => q.clusterName
    case ProjectId => q.projectId
  }

  function With(q: Query, f: Field, value: Option<string>): (q': Query)
    ensures Slot(q', f) == value && forall g :: g != f ==> Slot(q', g) == Slot(q, g)
  {
    match f
    case Status => q.(status := value)
    case Type => q.(jobType := value)
    case ClusterName => q.(clusterName := value)
    case ProjectId => q.(projectId := value)
  }

  /** The filter chain of JobList.get: status, type, cluster name, project id, in that order. */
  function FilterJobs(jobs: seq<Job>, q: Query): Result<seq<Job>> {
    var a :- Step(jobs, Status, q.status);
    var b :- Step(a, Type, q.jobType);
    var c :- Step(b, ClusterName, q.clusterName);
    Step(c, ProjectId, q.projectId)
  }

  /** A truthy filter value admits only a field equal to it; a falsy one admits every field. */
  predicate Allows(filter: Option<string>, value: Option<string>) {
    !Truthy(filter) || value == filter
  }

  /** The job passes every filter of the query. */
  predicate Matches(j: Job, q: Query) {
    Allows(q.status, FieldOf(j, Status)) && Allows(q.jobType, FieldOf(j, Type)) &&
    Allows(q.clusterName, FieldOf(j, ClusterName)) && Allows(q.projectId, FieldOf(j, ProjectId))
  }

  /** The reference selection: one pass keeping the jobs that pass every filter. */
  function Select(jobs: seq<Job>, q: Query): seq<Job> {
    if jobs == [] then [] else (if Matches(jobs[0], q) then [jobs[0]] else []) + Select(jobs[1..], q)
  }

  /** `a` is `b` with some of its jobs left out and none reordered. */
  predicate Subsequence(a: seq<Job>, b: seq<Job>)
    decreases |b|
  {
    if b == [] then a == []
    else (a != [] && a[0] == b[0] && Subsequence(a[1..], b[1..])) || Subsequence(a, b[1..])
  }

  /** A job is selected exactly when it is in the list and passes every filter. */
  lemma {:induction false} SelectMembers(jobs: seq<Job>, q: Query, j: Job)
    ensures j in Select(jobs, q) <==> j in jobs && Matches(j, q)
  {
    if jobs != [] {
      SelectMembers(jobs[1..], q, j);
      assert jobs == [jobs[0]] + jobs[1..];
    }
  }

  /** Selection keeps the jobs' relative order. */
  lemma {:induction false} SelectOrder(jobs: seq<Job>, q: Query)
    ensures Subsequence(Select(jobs, q), jobs)
  {
    if jobs != [] {
      SelectOrder(jobs[1..], q);
      var s := Select(jobs, q);
      if Matches(jobs[0], q) {
        assert s != [] && s[0] == jobs[0] && s[1..] == Select(jobs[1..], q);
      } else {
        assert s == Select(jobs[1..], q);
      }
    }
  }

  /** With no truthy filter every job is kept. */
  lemma {:induction false} SelectAll(jobs: seq<Job>, q: Query)
    requires !Truthy(q.status) && !Truthy(q.jobType) && !Truthy(q.clusterName) && !Truthy(q.projectId)
    ensures Select(jobs, q) == jobs
  {
    if jobs != [] {
      SelectAll(jobs[1..], q);
      assert jobs == [jobs[0]] + jobs[1..];
    }
  }

  /** A falsy value in a slot the query leaves open selects as the open slot does. */
  lemma {:induction false} SelectFalsy(jobs: seq<Job>, q: Query, f: Field, value: Option<string>)
    requires Slot(q, f).None? && !Truthy(value)
    ensures Select(jobs, With(q, f, value)) == Select(jobs, q)
  {
    if jobs != [] {
      SelectFalsy(jobs[1..], q, f, value);
      assert Matches(jobs[0], With(q, f, value)) == Matches(jobs[0], q);
    }
  }

  /** Filtering the selection by one more field is selecting with that field's filter added. */
  lemma {:induction false} KeepSelect(jobs: seq<Job>, q: Query, f: Field, value: Option<string>)
    requires Slot(q, f).None? && Truthy(value)
    requires f == ProjectId ==> AllTagged(jobs)
    ensures Keep(Select(jobs, q), f, value.value) == Ok(Select(jobs, With(q, f, value)))
  {
    if jobs != [] {
      var tail := jobs[1..];
      assert AllTagged(jobs) ==> AllTagged(tail) by {
        if AllTagged(jobs) {
          forall i | 0 <= i < |tail|
            ensures tail[i].projectId.Some?
          {
            assert tail[i] == jobs[i + 1];
          }
        }
      }
      KeepSelect(tail, q, f, value);
      assert f == ProjectId ==> jobs[0].projectId.Some?;
      assert Matches(jobs[0], With(q, f, value)) == (Matches(jobs[0], q) && FieldOf(jobs[0], f) == value);
      var s := Select(jobs, q);
      if Matches(jobs[0], q) {
        assert s[0] == jobs[0] && s[1..] == Select(tail, q);
      } else {
        assert s == Select(tail, q);
        assert !Matches(jobs[0], With(q, f, value));
        assert Select(jobs, With(q, f, value)) == Select(tail, With(q, f, value));
      }
    }
  }

  /** One filter step on the selection of the query's earlier slots. */
  lemma StepSelect(jobs: seq<Job>, q: Query, f: Field, value: Option<string>)
    requires Slot(q, f).None?
    requires f == ProjectId && Truthy(value) ==> AllTagged(jobs)
    ensures Step(Select(jobs, q), f, value) == Ok(Select(jobs, With(q, f, value)))
  {
    if Truthy(value) {
      KeepSelect(jobs, q, f, value);
    } else {
      SelectFalsy(jobs, q, f, value);
    }
  }

  /**
   * The filter chain is the one-pass selection: the filters combine
   * conjunctively, falsy ones restrict nothing. It cannot fail when every
   * job carries a project id or no project filter is given.
   */
  lemma FilterSelect(jobs: seq<Job>, q: Query)
    requires AllTagged(jobs) || !Truthy(q.projectId)
    ensures FilterJobs(jobs, q) == Ok(Select(jobs, q))
  {
    SelectAll(jobs, NoFilter);
    var q1 := With(NoFilter, Status, q.status);
    var q2 := With(q1, Type, q.jobType);
    var q3 := With(q2, ClusterName, q.clusterName);
    StepSelect(jobs, NoFilter, Status, q.status);
    StepSelect(jobs, q1, Type, q.jobType);
    StepSelect(jobs, q2, ClusterName, q.clusterName);
    StepSelect(jobs, q3, ProjectId, q.projectId);
    assert With(q3, ProjectId, q.projectId) == q;
  }

  /** With no filter argument the whole list comes back. */
  lemma NoFilterKeepsAll(jobs: seq<Job>, q: Query)
    requires !Truthy(q.status) && !Truthy(q.jobType) && !Truthy(q.clusterName) && !Truthy(q.projectId)
    ensures FilterJobs(jobs, q) == Ok(jobs)
  {
    FilterSelect(jobs, q);
    SelectAll(jobs, q);
  }

  datatype Body = JobsBody(jobs: seq<Job>) | JobBody(job: Job) | ErrorBody(error: string) | NoBody

  datatype Response = Response(body: Body, code: int)

  const JobNotFound := "Job not found"

  /** The answer to a failed parameter check: 401 with the InternalException's message; anything else propagates. */
  function Unauthorized(e: Error): (r: Result<Response>)
    ensures e.Internal? ==> r == Ok(Response(ErrorBody(Message(e)), 401))
    ensures !e.Internal? ==> r == Err(e)
  {
    if e.Internal? then Ok(Response(ErrorBody(Message(e)), 401)) else Err(e)
  }

  /**
   * JobList.get: after the project check (`check`), the stored jobs in row
   * order, narrowed by the query. In a store whose jobs all carry a
   * project id the answer is the one-pass selection.
   */
  function JobList(check: Result<Unit>, store: JobStore.Collection<Job>, order: seq<string>, q: Query): (r: Result<Response>)
    reads store
    requires store.IsListing(order)
    ensures check.Err? ==> r == Unauthorized(check.error)
    ensures check.Ok? && (JobStore.Tagged(store.docs) || !Truthy(q.projectId)) ==>
      r == Ok(Response(JobsBody(Select(JobStore.GetJobList(store, order), q)), 200))
    ensures r.Ok? && r.value.code == 200 ==>
      r.value.body.JobsBody? && forall j :: j in r.value.body.jobs ==> Matches(j, q) && j in store.docs.Values
  {
    if check.Err? then Unauthorized(check.error)
    else
      var listed := JobStore.GetJobList(store, order);
      var filtered := FilterJobs(listed, q);
      FilterOutcome(listed, q, store.docs);
      if filtered.Err? then Err(filtered.error) else Ok(Response(JobsBody(filtered.value), 200))
  }

  /**
   * The filter chain returns the selection whenever it cannot fail, and
   * what it returns always passes every filter.
   */
  lemma FilterOutcome(listed: seq<Job>, q: Query, docs: map<string, Job>)
    requires forall i :: 0 <= i < |listed| ==> listed[i] in docs.Values
    ensures AllTagged(listed) || !Truthy(q.projectId) ==> FilterJobs(listed, q) == Ok(Select(listed, q))
    ensures FilterJobs(listed, q).Ok? ==>
      forall j :: j in FilterJobs(listed, q).value ==> Matches(j, q) && j in docs.Values
  {
    if AllTagged(listed) || !Truthy(q.projectId) {
      FilterSelect(listed, q);
      forall j | j in Select(listed, q)
        ensures Matches(j, q) && j in docs.Values
      {
        SelectMembers(listed, q, j);
      }
    } else {
      var q3 := Query(q.status, q.jobType, q.clusterName, None);
      FilterSelect(listed, q3);
      var c := Select(listed, q3);
      assert FilterJobs(listed, q) == Keep(c, ProjectId, q.projectId.value);
      if FilterJobs(listed, q).Ok? {
        var kept := FilterJobs(listed, q).value;
        KeepPasses(c, ProjectId, q.projectId.value, kept);
        forall j | j in kept
          ensures Matches(j, q) && j in docs.Values
        {
          SelectMembers(listed, q3, j);
        }
      }
    }
  }

  /** What one filter keeps came from its input and has the field equal to the value. */
  lemma {:induction false} KeepPasses(jobs: seq<Job>, f: Field, value: string, kept: seq<Job>)
    requires Keep(jobs, f, value) == Ok(kept)
    ensures forall j :: j in kept ==> j in jobs && FieldOf(j, f) == Some(value)
  {
    if jobs != [] {
      var rest := Keep(jobs[1..], f, value).value;
      KeepPasses(jobs[1..], f, value, rest);
    }
  }

  /**
   * Job.get as written: an unknown job is answered with 404 and an error
   * body; for a stored job the record is read but not returned, so the
   * answer carries no body.
   */
  function JobLookup(check: Result<Unit>, store: JobStore.Collection<Job>, id: string): (r: Result<Response>)
    reads store
    ensures check.Err? ==> r == Unauthorized(check.error)
    ensures check.Ok? && id !in store.faults ==>
      r == Ok(if id in store.docs then Response(NoBody, 200) else Response(ErrorBody(JobNotFound), 404))
    ensures r.Ok? && r.value.code == 200 ==> r.value.body == NoBody
  {
    if check.Err? then Unauthorized(check.error)
    else
      var found := JobStore.CheckJob(store, id);
      if found.Err? then Err(found.error)
      else if found.value then
        // check_job succeeded, so the record reads back
        var job := JobStore.GetJob(store, id).value;
        Ok(Response(NoBody, 200))
      else Ok(Response(ErrorBody(JobNotFound), 404))
  }

  /** Job.get as evidently intended: a stored job is answered with its record. */
  function JobLookupIntended(check: Result<Unit>, store: JobStore.Collection<Job>, id: string): (r: Result<Response>)
    reads store
    ensures check.Err? ==> r == Unauthorized(check.error)
    ensures check.Ok? && id !in store.faults ==>
      r == Ok(if id in store.docs then Response(JobBody(store.docs[id]), 200) else Response(ErrorBody(JobNotFound), 404))
  {
    if check.Err? then Unauthorized(check.error)
    else
      var found := JobStore.CheckJob(store, id);
      if found.Err? then Err(found.error)
      else if found.value then
        // check_job succeeded, so the record reads back
        var job := JobStore.GetJob(store, id).value;
        Ok(Response(JobBody(job), 200))
      else Ok(Response(ErrorBody(JobNotFound), 404))
  }

  /** For every stored job the route as written answers without the record the intended route returns. */
  lemma LookupDropsRecord(check: Result<Unit>, store: JobStore.Collection<Job>, id: string)
    requires check.Ok? && id !in store.faults && id in store.docs
    ensures JobLookup(check, store, id) == Ok(Response(NoBody, 200))
    ensures JobLookupIntended(check, store, id) == Ok(Response(JobBody(store.docs[id]), 200))
    ensures JobLookup(check, store, id) != JobLookupIntended(check, store, id)
  {
  }
}
