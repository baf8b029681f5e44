/**
 * The command-line tool's older bucket helpers (lib/storage.py): a bucket
 * created without location or key when it does not exist, and the startup
 * script uploaded into it under its own file name.
 */
module LegacyStorage {
  import opened Common
  import opened Cloud
  import Storage

  /** `bucket.exists()`: a missing bucket answers False; any other error is raised. */
  method Exists(p: Provider, name: string) returns (r: Result<bool>)
    modifies p
    ensures p.State() == old(p.State()).(log := old(p.log) + [GetBucket(name)])
    ensures GetBucket(name) !in p.faults ==> r == Ok(name in p.buckets)
    ensures GetBucket(name) in p.faults ==>
      r == if p.faults[GetBucket(name)].text == NotFound then Ok(false) else Err(CallError(p.faults[GetBucket(name)]))
  {
    var got := p.GetBucketCall(name);
    if got.Ok? {
      return Ok(true);
    }
    if got.error == ApiError(NotFound) {
      return Ok(false);
    }
    return Err(got.error);
  }

  /** create_bucket: create the bucket, with no location, only when it does not exist. */
  method CreateBucketIfAbsent(p: Provider, name: string) returns (r: Result<Unit>)
    modifies p
    ensures p.State() == old(p.State()).(buckets := p.buckets, log := p.log)
    ensures name in old(p.buckets) && GetBucket(name) !in p.faults ==>
      r.Ok? && p.State() == old(p.State()).(log := old(p.log) + [GetBucket(name)])
    ensures name !in old(p.buckets) && GetBucket(name) !in p.faults ==>
      p.log == old(p.log) + [GetBucket(name), CreateBucket(name, None)] &&
      (r.Ok? <==> CreateBucket(name, None) !in p.faults) &&
      (r.Ok? ==> p.buckets == old(p.buckets)[name := Bucket(None, None, [], {})])
    ensures r.Ok? ==> name in p.buckets
  {
    var present := Exists(p, name);
    if present.Err? {
      return Err(present.error);
    }
    if !present.value {
      r := p.CreateBucketCall(name, None);
      return;
    }
    return Ok(Unit);
  }

  /** `raise` of a plain string fails in turn: a string is not an exception. */
  const NotAnException := "exceptions must derive from BaseException"

  /**
   * upload_startup_script: pick the family's startup script (the same
   * choice as the cluster library's), make sure the bucket exists and upload
   * the script under its file name. An unknown family raises TypeError
   * before any call.
   */
  method UploadStartupScript(p: Provider, imageFamily: string, bucketName: string) returns (r: Result<string>)
    modifies p
    ensures Storage.DistroOf(imageFamily).Err? ==> r == Err(TypeError(NotAnException)) && p.State() == old(p.State())
    ensures p.State() == old(p.State()).(buckets := p.buckets, log := p.log)
    ensures r.Ok? ==>
      var obj := Storage.StartupScript(Storage.DistroOf(imageFamily).value);
      Storage.DistroOf(imageFamily).Ok? && r.value == PublicUrl(bucketName, obj) &&
      bucketName in p.buckets && obj in p.buckets[bucketName].objects && |p.log| > 0 &&
      p.log[|p.log| - 1] == UploadObject(bucketName, obj)
  {
    var distro := Storage.DistroOf(imageFamily);
    if distro.Err? {
      return Err(TypeError(NotAnException));
    }
    var bucket := CreateBucketIfAbsent(p, bucketName);
    if bucket.Err? {
      return Err(bucket.error);
    }
    r := p.UploadObjectCall(bucketName, Storage.StartupScript(distro.value));
  }
}
