/**
 * The store-backed job registry (api/internal/jobs_controller.py) over the
 * document store client (api/internal/couchbase.py). A bucket's default
 * collection is a map from document key to document; the client calls on
 * a key the store rejects raise a client error, and so does reading or
 * replacing a document that is not there.
 */
module JobStore {
  import opened Common
  import opened Jobs

  const StoreFailure := "document store request failed"
  const DocumentNotFound := "document not found"

  /** The documents in the given key order. */
  function Rows<T>(docs: map<string, T>, order: seq<string>): (rows: seq<T>)
    requires forall k :: k in order ==> k in docs
    ensures |rows| == |order|
    ensures forall i :: 0 <= i < |order| ==> rows[i] == docs[order[i]]
  {
    if order == [] then [] else [docs[order[0]]] + Rows(docs, order[1..])
  }

  predicate Distinct(order: seq<string>) {
    forall i, j :: 0 <= i < j < |order| ==> order[i] != order[j]
  }

  /** A key order with no repeats holds as many keys as it has positions. */
  lemma {:induction false} DistinctCount(order: seq<string>)
    requires Distinct(order)
    ensures |set k | k in order| == |order|
  {
    if order != [] {
      var tail := order[1..];
      assert Distinct(tail) by {
        forall i, j | 0 <= i < j < |tail|
          ensures tail[i] != tail[j]
        {
          assert tail[i] == order[i + 1] && tail[j] == order[j + 1];
        }
      }
      DistinctCount(tail);
      assert order[0] !in tail by {
        forall i | 0 <= i < |tail|
          ensures tail[i] != order[0]
        {
          assert tail[i] == order[i + 1];
        }
      }
      assert (set k | k in order) == (set k | k in tail) + {order[0]} by {
        assert order == [order[0]] + tail;
      }
    }
  }

  /** One bucket's default collection. */
  class Collection<T> {
    /** The keys whose operations the client fails. */
    const faults: set<string>
    var docs: map<string, T>

    constructor (faults: set<string>)
      ensures this.faults == faults && docs == map[]
    {
      this.faults := faults;
      docs := map[];
    }

    /** insert: an upsert, then a read of the document written. */
    method Insert(key: string, value: T) returns (r: Result<T>)
      modifies this
      ensures key in faults ==> r == Err(ApiError(StoreFailure)) && docs == old(docs)
      ensures key !in faults ==> r == Ok(value) && docs == old(docs)[key := value]
    {
      if key in faults {
        return Err(ApiError(StoreFailure));
      }
      docs := docs[key := value];
      return Ok(value);
    }

    /** update: a replace, which needs the document to exist, then a read of the document written. */
    method Update(key: string, value: T) returns (r: Result<T>)
      modifies this
      ensures r.Ok? <==> key !in faults && key in old(docs)
      ensures r.Ok? ==> r.value == value && docs == old(docs)[key := value]
      ensures r.Err? ==> docs == old(docs)
      ensures key !in faults && key !in old(docs) ==> r == Err(ApiError(DocumentNotFound))
    {
      if key in faults {
        return Err(ApiError(StoreFailure));
      }
      if key !in docs {
        return Err(ApiError(DocumentNotFound));
      }
      docs := docs[key := value];
      return Ok(value);
    }

    /** get: the document under the key. */
    function Get(key: string): (r: Result<T>)
      reads this
      ensures r.Ok? <==> key !in faults && key in docs
      ensures r.Ok? ==> r.value == docs[key]
    {
      if key in faults then Err(ApiError(StoreFailure))
      else if key !in docs then Err(ApiError(DocumentNotFound))
      else Ok(docs[key])
    }

    /** check: whether a document is stored under the key. */
    function Check(key: string): (r: Result<bool>)
      reads this
      ensures r.Ok? <==> key !in faults
      ensures r.Ok? ==> (r.value <==> key in docs)
    {
      if key in faults then Err(ApiError(StoreFailure)) else Ok(key in docs)
    }

    /** A row order the listing query may return: every stored key once. */
    predicate IsListing(order: seq<string>)
      reads this
    {
      Distinct(order) && (forall k :: k in order ==> k in docs) && (forall k :: k in docs ==> k in order)
    }

    /** list: every stored document, once each, in the query's row order. */
    function List(order: seq<string>): (rows: seq<T>)
      reads this
      requires IsListing(order)
      ensures |rows| == |order| == |docs|
      ensures forall i :: 0 <= i < |order| ==> rows[i] == docs[order[i]]
      ensures forall k :: k in docs ==> docs[k] in rows
    {
      ListingRows(docs, order);
      Rows(docs, order)
    }
  }

  /** Rows in a listing order hold every document, once per key. */
  lemma ListingRows<T>(docs: map<string, T>, order: seq<string>)
    requires Distinct(order) && forall k :: k in order <==> k in docs
    ensures |Rows(docs, order)| == |docs|
    ensures forall k :: k in docs ==> docs[k] in Rows(docs, order)
  {
    DistinctCount(order);
    assert docs.Keys == set k | k in order;
    var rows := Rows(docs, order);
    forall k | k in docs
      ensures docs[k] in rows
    {
      var i :| 0 <= i < |order| && order[i] == k;
      assert rows[i] == docs[k];
    }
  }

  /** Every stored job carries a project id. */
  predicate Tagged(docs: map<string, Job>) {
    forall k :: k in docs ==> docs[k].projectId.Some?
  }

  /**
   * add_job: the record with exactly its id, cluster, type, status and
   * project id, upserted under the job id.
   */
  method AddJob(store: Collection<Job>, id: string, clusterName: string, jobType: string, status: string, projectId: string)
    returns (r: Result<Unit>)
    modifies store
    ensures r.Ok? <==> id !in store.faults
    ensures r.Err? ==> store.docs == old(store.docs)
    ensures r.Ok? ==> store.docs == old(store.docs)[id := Job(id, clusterName, jobType, status, Some(projectId), None)]
    ensures old(Tagged(store.docs)) ==> Tagged(store.docs)
  {
    var job := Job(id, clusterName, jobType, status, Some(projectId), None);
    var inserted := store.Insert(id, job);
    r := if inserted.Err? then Err(inserted.error) else Ok(Unit);
  }

  /**
   * update_job_status: read the record, change its status (and its message
   * when the given one is truthy), write it back. A record that cannot be
   * read is an error and nothing changes.
   */
  method UpdateJobStatus(store: Collection<Job>, id: string, status: string, message: Option<string>)
    returns (r: Result<Unit>)
    modifies store
    ensures r.Ok? <==> id !in store.faults && id in old(store.docs)
    ensures r.Err? ==> store.docs == old(store.docs)
    ensures r.Ok? ==> store.docs == old(store.docs)[id := WithStatus(old(store.docs)[id], status, message)]
    ensures old(Tagged(store.docs)) ==> Tagged(store.docs)
  {
    var job := store.Get(id);
    if job.Err? {
      return Err(job.error);
    }
    var written := store.Update(id, WithStatus(job.value, status, message));
    // the document was just read, so the replace finds it
    assert written.Ok?;
    r := Ok(Unit);
  }

  /** check_job: whether the job is stored. */
  function CheckJob(store: Collection<Job>, id: string): (r: Result<bool>)
    reads store
    ensures r.Ok? ==> (r.value <==> id in store.docs)
    ensures id !in store.faults ==> r.Ok?
  {
    store.Check(id)
  }

  /** get_job: the stored record. */
  function GetJob(store: Collection<Job>, id: string): (r: Result<Job>)
    reads store
    ensures r.Ok? <==> id !in store.faults && id in store.docs
    ensures r.Ok? ==> r.value == store.docs[id]
  {
    store.Get(id)
  }

  /**
   * get_job_list: each row's job, in row order. In a store where every job
   * carries a project id, so does every listed job.
   */
  function GetJobList(store: Collection<Job>, order: seq<string>): (jobs: seq<Job>)
    reads store
    requires store.IsListing(order)
    ensures |jobs| == |store.docs|
    ensures forall k :: k in store.docs ==> store.docs[k] in jobs
    ensures forall i :: 0 <= i < |jobs| ==> jobs[i] in store.docs.Values
    ensures Tagged(store.docs) ==> AllTagged(jobs)
  {
    store.List(order)
  }
}
