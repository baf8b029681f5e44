/**
 * The bodies of the worker threads' `run()` methods (api/internal/threads.py).
 * Each runs its steps and then writes one terminal status into the job
 * store: COMPLETED when the steps returned, FAILED with the exception's
 * message after an InternalException, FAILED with no message after any
 * other exception. `exit()` raises SystemExit, which no handler catches:
 * the thread ends with the job's record untouched.
 */
module Workers {
  import opened Common
  import opened Jobs
  import opened Cloud
  import JobStore
  import JsonValue
  import Entities
  import DeleteCluster
  import Migration
  import UpdateCluster

  /** The steps ended by SystemExit, which escapes every handler. */
  predicate Escapes(outcome: Result<Unit>) {
    outcome.Err? && outcome.error.Exit?
  }

  /**
   * The record a run leaves after steps that ended with `outcome`: COMPLETED
   * exactly after success; FAILED otherwise, carrying the InternalException's
   * message, which is never empty.
   */
  function Recorded(j: Job, outcome: Result<Unit>): (k: Job)
    ensures k.status == CompletedStatus <==> outcome.Ok?
    ensures outcome.Err? ==> k.status == FailedStatus
    ensures outcome.Err? && outcome.error.Internal? ==> k.message.Some? && k.message.value == Message(outcome.error) && k.message.value != ""
    ensures !(outcome.Err? && outcome.error.Internal?) ==> k.message == j.message
    ensures k.name == j.name && k.clusterName == j.clusterName && k.jobType == j.jobType && k.projectId == j.projectId
  {
    if outcome.Ok? then WithStatus(j, CompletedStatus, None)
    else if outcome.error.Internal? then WithStatus(j, FailedStatus, Some(Message(outcome.error)))
    else WithStatus(j, FailedStatus, None)
  }

  /** The job's record can be read and written back. */
  predicate Writable(jobs: JobStore.Collection<Job>, id: string)
    reads jobs
  {
    id !in jobs.faults && id in jobs.docs
  }

  /**
   * AsyncOperationThread.run, given how the operation ended: one status
   * write for that outcome. A status write that fails on COMPLETED falls to
   * the generic handler, whose FAILED write fails the same way; a failed
   * write in a handler ends the thread with the store's error.
   */
  method RunOperation(jobs: JobStore.Collection<Job>, id: string, outcome: Result<Unit>) returns (r: Result<Unit>)
    modifies jobs
    ensures Escapes(outcome) ==> r == outcome && jobs.docs == old(jobs.docs)
    ensures !Escapes(outcome) && old(Writable(jobs, id)) ==>
      r.Ok? && jobs.docs == old(jobs.docs)[id := Recorded(old(jobs.docs)[id], outcome)]
    ensures !old(Writable(jobs, id)) ==> r.Err? && jobs.docs == old(jobs.docs)
  {
    if outcome.Ok? {
      r := JobStore.UpdateJobStatus(jobs, id, CompletedStatus, None);
      if r.Err? {
        // the store's error is not an InternalException
        r := JobStore.UpdateJobStatus(jobs, id, FailedStatus, None);
      }
    } else if outcome.error.Internal? {
      var e := outcome.error;
      var message := if Message(e) != "" then Some(Message(e)) else None;
      r := JobStore.UpdateJobStatus(jobs, id, FailedStatus, message);
    } else if outcome.error.Exit? {
      r := outcome;
    } else {
      r := JobStore.UpdateJobStatus(jobs, id, FailedStatus, None);
    }
  }

  /**
   * CreateClusterThread.run: the cluster's document is stored first, and
   * creation runs only once it is. `created` is how the creation would end;
   * `ran` says whether it was started. A document that cannot be stored
   * fails the job without creating anything.
   */
  method RunCreate(jobs: JobStore.Collection<Job>, clusters: JobStore.Collection<JsonValue.Json>, id: string,
                   clusterName: string, clusterJson: JsonValue.Json, created: Result<Unit>)
    returns (ran: bool, r: Result<Unit>)
    modifies jobs, clusters
    ensures ran <==> clusterName !in clusters.faults
    ensures ran ==> clusters.docs == old(clusters.docs)[clusterName := clusterJson]
    ensures !ran ==> clusters.docs == old(clusters.docs)
    ensures old(Writable(jobs, id)) && !(ran && Escapes(created)) ==>
      r.Ok? && jobs.docs == old(jobs.docs)[id := Recorded(old(jobs.docs)[id], if ran then created else Err(ApiError(JobStore.StoreFailure)))]
    ensures old(Writable(jobs, id)) && !ran ==> jobs.docs[id].status == FailedStatus && jobs.docs[id].message == old(jobs.docs)[id].message
    ensures ran && Escapes(created) ==> jobs.docs == old(jobs.docs)
  {
    var stored := clusters.Insert(clusterName, clusterJson);
    ran := stored.Ok?;
    var outcome := if stored.Err? then Err(stored.error) else created;
    r := RunOperation(jobs, id, outcome);
  }

  /**
   * UpdateClusterThread.run: the cluster's stored document is replaced
   * first, and the update runs only once it is. The update never succeeds,
   * so the job never completes; a document that is not stored fails the
   * job before the cloud is touched.
   */
  method RunUpdate(jobs: JobStore.Collection<Job>, clusters: JobStore.Collection<JsonValue.Json>, p: Provider, id: string,
                   c: Entities.ClusterSpec, clusterJson: JsonValue.Json, updateType: Entities.UpdateType, suffix: string,
                   storageAccount: Option<string>, computeAccount: Option<string>)
    returns (r: Result<Unit>)
    modifies jobs, clusters, p
    ensures c.name in clusters.faults || c.name !in old(clusters.docs) ==>
      p.State() == old(p.State()) && clusters.docs == old(clusters.docs)
    ensures c.name !in clusters.faults && c.name in old(clusters.docs) ==>
      clusters.docs == old(clusters.docs)[c.name := clusterJson]
    ensures r.Ok? ==> old(Writable(jobs, id)) && jobs.docs.Keys == old(jobs.docs).Keys && jobs.docs[id].status == FailedStatus
    ensures jobs.docs.Keys == old(jobs.docs).Keys
    ensures forall other :: other in jobs.docs && other != id ==> jobs.docs[other] == old(jobs.docs)[other]
  {
    var replaced := clusters.Update(c.name, clusterJson);
    var outcome;
    if replaced.Err? {
      outcome := Err(replaced.error);
    } else {
      ghost var step;
      outcome, step := UpdateCluster.UpdateCluster(p, c, updateType, suffix, storageAccount, computeAccount);
    }
    r := RunOperation(jobs, id, outcome);
  }

  /**
   * DeleteClusterThread.run: the job completes exactly when the deletion
   * succeeded, and then the cluster's group is gone.
   */
  method RunDelete(jobs: JobStore.Collection<Job>, p: Provider, id: string, cluster: string)
    returns (deleted: Result<Unit>, r: Result<Unit>)
    modifies jobs, p
    ensures !Escapes(deleted) && old(Writable(jobs, id)) ==>
      r.Ok? && jobs.docs == old(jobs.docs)[id := Recorded(old(jobs.docs)[id], deleted)]
    ensures Escapes(deleted) || !old(Writable(jobs, id)) ==> jobs.docs == old(jobs.docs)
    ensures deleted.Ok? ==> cluster in old(p.groups) && cluster !in p.groups
    ensures r.Ok? && id in jobs.docs && jobs.docs[id].status == CompletedStatus ==> cluster in old(p.groups) && cluster !in p.groups
  {
    deleted := DeleteCluster.DeleteCluster(p, cluster);
    r := RunOperation(jobs, id, deleted);
  }

  /**
   * MigrateClusterThread.run: exactly one terminal status, COMPLETED only
   * when the migration found the cluster's group.
   */
  method RunMigrate(jobs: JobStore.Collection<Job>, p: Provider, id: string, cluster: string)
    returns (migrated: Result<Unit>, r: Result<Unit>)
    modifies jobs, p
    ensures !Escapes(migrated) && old(Writable(jobs, id)) ==>
      r.Ok? && jobs.docs == old(jobs.docs)[id := Recorded(old(jobs.docs)[id], migrated)]
    ensures Escapes(migrated) || !old(Writable(jobs, id)) ==> jobs.docs == old(jobs.docs)
    ensures !old(Migration.GroupFound(p, cluster)) ==>
      migrated == Err(Migration.GroupNotFound(cluster))
    ensures !old(Migration.GroupFound(p, cluster)) && old(Writable(jobs, id)) ==>
      jobs.docs[id].status == FailedStatus && jobs.docs[id].message == Some(Message(Migration.GroupNotFound(cluster)))
    ensures p.groups.Keys == old(p.groups).Keys
  {
    ghost var rollout;
    migrated, rollout := Migration.ApplyMigration(p, cluster);
    r := RunOperation(jobs, id, migrated);
  }
}
