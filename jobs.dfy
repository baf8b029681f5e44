/**
 * The job record both job registries keep (api/internal/cache.py and
 * api/internal/jobs_controller.py): the job's id, its cluster, its type,
 * its status, the project it runs in (only the store-backed registry
 * records it) and the message of its last failure, absent until a status
 * update brings one.
 */
module Jobs {
  import opened Common

  datatype Job = Job(
    name: string,
    clusterName: string,
    jobType: string,
    status: string,
    projectId: Option<string>,
    message: Option<string>)

  const CompletedStatus := "COMPLETED"
  const FailedStatus := "FAILED"

  /** Every job in the list carries a project id. */
  predicate AllTagged(jobs: seq<Job>) {
    forall i :: 0 <= i < |jobs| ==> jobs[i].projectId.Some?
  }

  /** Python truthiness of an optional string argument: present and not empty. */
  predicate Truthy(m: Option<string>) {
    m.Some? && m.value != ""
  }

  /**
   * The status update both registries apply: the status is replaced, the
   * message is written only when the given one is truthy, and every other
   * field is kept.
   */
  function WithStatus(j: Job, status: string, message: Option<string>): (k: Job)
    ensures k.status == status
    ensures k.name == j.name && k.clusterName == j.clusterName && k.jobType == j.jobType && k.projectId == j.projectId
    ensures Truthy(message) ==> k.message == message
    ensures !Truthy(message) ==> k.message == j.message
  {
    if Truthy(message) then j.(status := status, message := message) else j.(status := status)
  }

  /** A message, once written, survives every later update that brings none. */
  lemma MessageKept(j: Job, s1: string, m: Option<string>, s2: string, none: Option<string>)
    requires Truthy(m) && !Truthy(none)
    ensures WithStatus(WithStatus(j, s1, m), s2, none).message == m
    ensures WithStatus(WithStatus(j, s1, m), s2, none).status == s2
  {
  }

  /** Applying the same update twice is applying it once. */
  lemma WithStatusIdempotent(j: Job, status: string, message: Option<string>)
    ensures WithStatus(WithStatus(j, status, message), status, message) == WithStatus(j, status, message)
  {
  }
}
