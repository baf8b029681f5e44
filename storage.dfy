/**
 * The script bucket (shared/lib/storage.py): create-if-absent with the
 * cluster's default KMS key, the objectViewer grant for the compute service
 * account, the choice of startup and shutdown scripts by OS family, and the
 * node and hostname lists the startup script is rendered with.
 */
module Storage {
  import opened Common
  import opened Cloud
  import opened JsonValue
  import Text
  import InstanceNaming
  import Disks

  const ObjectViewer := "roles/storage.objectViewer"
  const ComputeAccountVariable := "COMPUTE_ENGINE_SERVICE_ACCOUNT_EMAIL"
  const NoNameOnNone := "'NoneType' object has no attribute 'name'"

  /**
   * The default KMS key name of the bucket: a string key as it is, a dict's
   * "name" entry, and the `name` attribute of anything else.
   */
  function BucketKeyName(key: KeyRef): (r: Result<string>)
    ensures key.KeyText? ==> r == Ok(key.text)
    ensures key.KeyDict? ==>
      if "name" in key.entries then r == Ok(key.entries["name"]) else r == Err(KeyError("name"))
    ensures key.KeyObject? ==> r == Ok(key.name)
    ensures key.NoKey? ==> r == Err(AttributeError(NoNameOnNone))
  {
    match key
    case KeyText(text) => Ok(text)
    case KeyDict(entries) => if "name" in entries then Ok(entries["name"]) else Err(KeyError("name"))
    case KeyObject(name) => Ok(name)
    case NoKey => Err(AttributeError(NoNameOnNone))
  }

  /**
   * A dict or message key names the same KMS key on the bucket as on the
   * template's disks.
   */
  lemma BucketKeyMatchesDiskKey(key: KeyRef, diskType: Json, sizeGb: Json, boot: Json, image: string, autoDelete: Json)
    requires KeyTruthy(key) && !key.KeyText?
    requires BucketKeyName(key).Ok?
    ensures Disks.DiskFromImage(diskType, sizeGb, key, boot, image, autoDelete).Ok?
    ensures Disks.DiskFromImage(diskType, sizeGb, key, boot, image, autoDelete).value.encryption
      == KmsKey(Some(BucketKeyName(key).value))
  {
  }

  /** The buckets other than `name` are untouched. */
  predicate OtherBucketsKept(s0: CloudState, s1: CloudState, name: string) {
    s1.buckets - {name} == s0.buckets - {name}
  }

  /** The bucket lookup fails, so `__create_bucket` tries to create it. */
  predicate BucketMissing(p: Provider, name: string)
    reads p
  {
    GetBucket(name) in p.faults || name !in p.buckets
  }

  /**
   * The first half of `__create_bucket`: get the bucket and, only when
   * that fails, create it in `location`. A creation that fails (a fault, or
   * a bucket the failed lookup did not see) ends the run.
   */
  method CreateIfAbsent(p: Provider, name: string, location: string) returns (r: Result<Unit>)
    modifies p
    ensures p.log == old(p.log) + [GetBucket(name)] + (if old(BucketMissing(p, name)) then [CreateBucket(name, Some(location))] else [])
    ensures p.State() == old(p.State()).(buckets := p.buckets, log := p.log)
    ensures r.Ok? <==> !old(BucketMissing(p, name)) || (name !in old(p.buckets) && CreateBucket(name, Some(location)) !in p.faults)
    ensures OtherBucketsKept(old(p.State()), p.State(), name)
    ensures p.buckets ==
      if r.Ok? && name !in old(p.buckets) then old(p.buckets)[name := Bucket(Some(location), None, [], {})] else old(p.buckets)
  {
    var got := p.GetBucketCall(name);
    r := Ok(Unit);
    if got.Err? {
      r := p.CreateBucketCall(name, Some(location));
    }
  }

  /**
   * The second half of `__create_bucket`: get the bucket again, resolve the
   * key name, set it as the default KMS key and patch.
   */
  method SetDefaultKey(p: Provider, name: string, key: KeyRef) returns (r: Result<Bucket>)
    modifies p
    ensures old(p.log) <= p.log && |p.log| > |old(p.log)| && p.log[|old(p.log)|] == GetBucket(name)
    ensures p.State() == old(p.State()).(buckets := p.buckets, log := p.log)
    ensures r.Ok? <==>
      GetBucket(name) !in p.faults && name in old(p.buckets) &&
      BucketKeyName(key).Ok? && PatchBucket(name, BucketKeyName(key).value) !in p.faults
    ensures OtherBucketsKept(old(p.State()), p.State(), name)
    ensures p.buckets ==
      if r.Ok? then old(p.buckets)[name := old(p.buckets)[name].(defaultKmsKey := Some(BucketKeyName(key).value))]
      else old(p.buckets)
    ensures r.Ok? ==> r.value == p.buckets[name]
  {
    var got := p.GetBucketCall(name);
    if got.Err? {
      return Err(got.error);
    }
    var keyName := BucketKeyName(key);
    if keyName.Err? {
      return Err(keyName.error);
    }
    var patched := p.PatchBucketCall(name, keyName.value);
    if patched.Err? {
      return Err(patched.error);
    }
    return Ok(p.buckets[name]);
  }

  /** Two steps that each change only bucket `name` and the log change only those together. */
  lemma BucketFrame(s0: CloudState, s1: CloudState, s2: CloudState, name: string)
    requires s1 == s0.(buckets := s1.buckets, log := s1.log) && OtherBucketsKept(s0, s1, name)
    requires s2 == s1.(buckets := s2.buckets, log := s2.log) && OtherBucketsKept(s1, s2, name)
    ensures s2 == s0.(buckets := s2.buckets, log := s2.log) && OtherBucketsKept(s0, s2, name)
  {
  }

  /** The lookup comes first, and the creation second exactly when the lookup failed. */
  lemma BucketLog(l0: seq<Request>, l1: seq<Request>, l2: seq<Request>, name: string, location: string, missing: bool)
    requires l1 == l0 + [GetBucket(name)] + (if missing then [CreateBucket(name, Some(location))] else [])
    requires l1 <= l2 && (!missing ==> |l2| > |l1| && l2[|l1|] == GetBucket(name))
    ensures |l2| > |l0| && l2[..|l0|] == l0 && l2[|l0|] == GetBucket(name)
    ensures missing <==> |l2| > |l0| + 1 && l2[|l0| + 1] == CreateBucket(name, Some(location))
  {
    assert l2[..|l0|] == l1[..|l0|];
    assert l2[|l0|] == l1[|l0|];
    if missing {
      assert l2[|l0| + 1] == l1[|l0| + 1];
    }
  }

  /**
   * `__create_bucket`: get the bucket and, only when that fails, create it
   * in `location`; get it again, resolve the key name, set it as the
   * default KMS key and patch. The answer is the patched bucket.
   */
  method EnsureBucket(p: Provider, name: string, location: string, key: KeyRef) returns (r: Result<Bucket>)
    modifies p
    ensures |p.log| > |old(p.log)| && p.log[..|old(p.log)|] == old(p.log)
    ensures p.log[|old(p.log)|] == GetBucket(name)
    ensures (GetBucket(name) in p.faults || name !in old(p.buckets)) <==>
      |p.log| > |old(p.log)| + 1 && p.log[|old(p.log)| + 1] == CreateBucket(name, Some(location))
    ensures p.State() == old(p.State()).(buckets := p.buckets, log := p.log)
    ensures OtherBucketsKept(old(p.State()), p.State(), name)
    ensures r.Ok? <==>
      GetBucket(name) !in p.faults &&
      (name in old(p.buckets) || CreateBucket(name, Some(location)) !in p.faults) &&
      BucketKeyName(key).Ok? && PatchBucket(name, BucketKeyName(key).value) !in p.faults
    ensures r.Ok? ==>
      name in p.buckets && r.value == p.buckets[name] &&
      r.value == (if name in old(p.buckets) then old(p.buckets)[name] else Bucket(Some(location), None, [], {}))
        .(defaultKmsKey := Some(BucketKeyName(key).value))
  {
    ghost var s0 := p.State();
    ghost var missing := BucketMissing(p, name);
    var created := CreateIfAbsent(p, name, location);
    ghost var s1 := p.State();
    if created.Err? {
      r := Err(created.error);
    } else {
      r := SetDefaultKey(p, name, key);
    }
    BucketLog(s0.log, s1.log, p.log, name, location, missing);
    BucketFrame(s0, s1, p.State(), name);
  }

  /**
   * The bucket grant: the compute service account as the dictionary
   * `{"user": email}`, not as a `user:` principal string.
   */
  function ViewerBinding(email: string): Binding {
    Binding(ObjectViewer, [Record("user", email)])
  }

  /**
   * setup_cloud_storage: create the bucket as above, then append one
   * objectViewer binding for the compute service account to the bucket's
   * policy. The answer is the bucket as `__create_bucket` returned it.
   */
  method SetupCloudStorage(p: Provider, name: string, region: string, key: KeyRef, computeAccount: Option<string>)
    returns (r: Result<Bucket>)
    modifies p
    ensures old(p.log) <= p.log
    ensures p.State() == old(p.State()).(buckets := p.buckets, log := p.log)
    ensures OtherBucketsKept(old(p.State()), p.State(), name)
    ensures r.Ok? ==> computeAccount.Some? && name in p.buckets
    ensures r.Ok? ==> p.buckets[name] == r.value.(bindings := r.value.bindings + [ViewerBinding(computeAccount.value)])
    ensures r.Ok? ==> BucketKeyName(key).Ok? && r.value.defaultKmsKey == Some(BucketKeyName(key).value)
  {
    var bucket := EnsureBucket(p, name, region, key);
    if bucket.Err? {
      return Err(bucket.error);
    }
    if computeAccount.None? {
      return Err(KeyError(ComputeAccountVariable));
    }
    var policy := p.GetBucketPolicyCall(name);
    if policy.Err? {
      return Err(policy.error);
    }
    var stored := p.SetBucketPolicyCall(name, policy.value + [ViewerBinding(computeAccount.value)]);
    if stored.Err? {
      return Err(stored.error);
    }
    return bucket;
  }

  /** A second setup grants the same account once more: the policy keeps both bindings. */
  lemma SetupAppendsWithoutDedup(bucket: Bucket, email: string)
    ensures var once := bucket.(bindings := bucket.bindings + [ViewerBinding(email)]);
      var twice := once.(bindings := once.bindings + [ViewerBinding(email)]);
      |twice.bindings| == |bucket.bindings| + 2 &&
      twice.bindings[|bucket.bindings|] == twice.bindings[|bucket.bindings| + 1] == ViewerBinding(email)
  {
  }

  // ------------------------------------------------------- script selection

  /** The script families there are scripts for. */
  datatype Distro = DebianLike | Rhel | Suse

  /** `image_family.split('-')[0]`. */
  function OsFamily(imageFamily: string): string {
    Text.Split(imageFamily, '-')[0]
  }

  function UnsupportedFamily(dist: string): Error {
    Internal(UnsupportedOSFamily, "Unsupported OS family: " + dist)
  }

  /** The family's scripts: debian and ubuntu share one set, rhel and suse have their own. */
  function DistroOf(imageFamily: string): (r: Result<Distro>)
    ensures r.Ok? <==> OsFamily(imageFamily) in {"debian", "ubuntu", "rhel", "suse"}
    ensures r.Err? ==> r.error == UnsupportedFamily(OsFamily(imageFamily))
    ensures r == Ok(DebianLike) <==> OsFamily(imageFamily) in {"debian", "ubuntu"}
  {
    var dist := OsFamily(imageFamily);
    if dist == "debian" || dist == "ubuntu" then Ok(DebianLike)
    else if dist == "rhel" then Ok(Rhel)
    else if dist == "suse" then Ok(Suse)
    else Err(UnsupportedFamily(dist))
  }

  /** Only the part before the first '-' decides the family: any version suffix is ignored. */
  lemma DistroOfPrefix(dist: string, version: string)
    requires '-' !in dist
    ensures OsFamily(dist + "-" + version) == dist
    ensures DistroOf(dist + "-" + version) == DistroOf(dist)
  {
    assert dist + "-" + version == dist + ['-'] + version;
    Text.SplitFirst(dist, '-', version);
    Text.SplitNoSeparator(dist, '-');
  }

  function StartupScript(d: Distro): string {
    match d
    case DebianLike => "startup-script-debian.sh"
    case Rhel => "startup-script-rhel.sh"
    case Suse => "startup-script-suse.sh"
  }

  function ShutdownScript(d: Distro): string {
    match d
    case DebianLike => "shutdown-script-debian.sh"
    case Rhel => "shutdown-script-rhel.sh"
    case Suse => "shutdown-script-suse.sh"
  }

  /** Each family has its own scripts, and no startup script shares a name with a shutdown script. */
  lemma ScriptNamesDistinct(d: Distro, e: Distro)
    ensures StartupScript(d) == StartupScript(e) <==> d == e
    ensures ShutdownScript(d) == ShutdownScript(e) <==> d == e
    ensures StartupScript(d) != ShutdownScript(e)
  {
    assert StartupScript(d)[0] == 's' && StartupScript(d)[1] == 't';
    assert ShutdownScript(e)[0] == 's' && ShutdownScript(e)[1] == 'h';
  }

  // ---------------------------------------------------- startup script args

  /** What the startup script is rendered with. */
  datatype RenderArgs = RenderArgs(masterName: string, masterHostname: string, peers: seq<string>, secretName: string)

  /** The internal DNS name of a node, without its zone. */
  function Hostname(node: string, project: string): string {
    node + ".c." + project + ".internal"
  }

  /**
   * The nodes `<cluster>-000 .. <cluster>-(size-1)`, the first of them the
   * master, and the hostnames of the others as its peers. Without nodes the
   * master lookup raises IndexError.
   */
  function StartupRender(cluster: string, size: int, project: string, secretName: string): (r: Result<RenderArgs>)
    ensures r.Ok? <==> size > 0
    ensures r.Err? ==> r.error.IndexError?
  {
    if size <= 0 then Err(IndexError("list index out of range"))
    else
      var nodes := seq(size, i requires 0 <= i => InstanceNaming.InstanceName(cluster, i));
      var hostnames := seq(size, i requires 0 <= i < size => Hostname(nodes[i], project));
      Ok(RenderArgs(nodes[0], hostnames[0], hostnames[1..], secretName))
  }

  /**
   * The master is node 000; every other node, and only those, is a peer, in
   * index order; the master's hostname is never among the peers.
   */
  lemma StartupRenderNodes(cluster: string, size: int, project: string, secretName: string)
    requires size > 0
    ensures var a := StartupRender(cluster, size, project, secretName).value;
      a.masterName == InstanceNaming.InstanceName(cluster, 0) &&
      a.masterHostname == Hostname(a.masterName, project) &&
      |a.peers| == size - 1 &&
      (forall i :: 0 <= i < |a.peers| ==> a.peers[i] == Hostname(InstanceNaming.InstanceName(cluster, i + 1), project)) &&
      a.masterHostname !in a.peers && a.secretName == secretName
  {
    var a := StartupRender(cluster, size, project, secretName).value;
    if a.masterHostname in a.peers {
      var i :| 0 <= i < |a.peers| && a.peers[i] == a.masterHostname;
      var n0 := InstanceNaming.InstanceName(cluster, 0);
      var n1 := InstanceNaming.InstanceName(cluster, i + 1);
      assert Hostname(n1, project) == Hostname(n0, project);
      HostnameInjective(n1, n0, project);
      InstanceNaming.InstanceNameInjective(cluster, i + 1, 0);
      assert false;
    }
  }

  lemma HostnameInjective(a: string, b: string, project: string)
    requires Hostname(a, project) == Hostname(b, project)
    ensures a == b
  {
    var suffix := ".c." + project + ".internal";
    assert Hostname(a, project) == a + suffix;
    assert Hostname(b, project) == b + suffix;
    assert |a| == |b|;
    assert a == Hostname(a, project)[..|a|];
  }

  // ---------------------------------------------------------------- upload

  /**
   * `__upload_startup_script`: pick the family's startup script, render it
   * for the cluster's nodes and upload it under its own file name.
   */
  method UploadStartupScript(p: Provider, imageFamily: string, bucketName: string, cluster: string, size: int, secretName: string)
    returns (r: Result<string>)
    modifies p
    ensures DistroOf(imageFamily).Err? ==> r == Err(DistroOf(imageFamily).error) && p.State() == old(p.State())
    ensures DistroOf(imageFamily).Ok? && size <= 0 ==> r.Err? && r.error.IndexError? && p.State() == old(p.State())
    ensures DistroOf(imageFamily).Ok? && size > 0 ==>
      var obj := StartupScript(DistroOf(imageFamily).value);
      p.log == old(p.log) + [UploadObject(bucketName, obj)] &&
      (r.Ok? <==> UploadObject(bucketName, obj) !in p.faults && bucketName in old(p.buckets)) &&
      (r.Ok? ==> (r.value == PublicUrl(bucketName, obj) &&
        p.State() == old(p.State()).(buckets := old(p.buckets)[bucketName := old(p.buckets)[bucketName].(objects := old(p.buckets)[bucketName].objects + {obj})], log := p.log))) &&
      (r.Err? ==> p.State() == old(p.State()).(log := p.log))
  {
    var distro := DistroOf(imageFamily);
    if distro.Err? {
      return Err(distro.error);
    }
    var render := StartupRender(cluster, size, p.project, secretName);
    if render.Err? {
      return Err(render.error);
    }
    r := p.UploadObjectCall(bucketName, StartupScript(distro.value));
  }

  /** `__upload_shutdown_script`: the family's shutdown script, uploaded under its own file name. */
  method UploadShutdownScript(p: Provider, imageFamily: string, bucketName: string) returns (r: Result<string>)
    modifies p
    ensures DistroOf(imageFamily).Err? ==> r == Err(DistroOf(imageFamily).error) && p.State() == old(p.State())
    ensures DistroOf(imageFamily).Ok? ==>
      var obj := ShutdownScript(DistroOf(imageFamily).value);
      p.log == old(p.log) + [UploadObject(bucketName, obj)] &&
      (r.Ok? <==> UploadObject(bucketName, obj) !in p.faults && bucketName in old(p.buckets)) &&
      (r.Ok? ==> (r.value == PublicUrl(bucketName, obj) &&
        p.State() == old(p.State()).(buckets := old(p.buckets)[bucketName := old(p.buckets)[bucketName].(objects := old(p.buckets)[bucketName].objects + {obj})], log := p.log))) &&
      (r.Err? ==> p.State() == old(p.State()).(log := p.log))
  {
    var distro := DistroOf(imageFamily);
    if distro.Err? {
      return Err(distro.error);
    }
    r := p.UploadObjectCall(bucketName, ShutdownScript(distro.value));
  }

  /** The two URLs `upload_scripts` answers, under their fixed keys. */
  datatype ScriptUrls = ScriptUrls(startupScriptUrl: string, shutdownScriptUrl: string)

  /**
   * upload_scripts: the startup script, then the shutdown script. On
   * success the bucket holds both scripts and the URLs point at them.
   */
  method UploadScripts(p: Provider, imageFamily: string, bucketName: string, cluster: string, size: int, secretName: string)
    returns (r: Result<ScriptUrls>)
    modifies p
    ensures old(p.log) <= p.log
    ensures p.State() == old(p.State()).(buckets := p.buckets, log := p.log)
    ensures OtherBucketsKept(old(p.State()), p.State(), bucketName)
    ensures r.Ok? <==>
      DistroOf(imageFamily).Ok? && size > 0 && bucketName in old(p.buckets) &&
      UploadObject(bucketName, StartupScript(DistroOf(imageFamily).value)) !in p.faults &&
      UploadObject(bucketName, ShutdownScript(DistroOf(imageFamily).value)) !in p.faults
    ensures r.Ok? ==>
      var d := DistroOf(imageFamily).value;
      r.value == ScriptUrls(PublicUrl(bucketName, StartupScript(d)), PublicUrl(bucketName, ShutdownScript(d))) &&
      bucketName in p.buckets &&
      p.buckets[bucketName] == old(p.buckets)[bucketName].(objects := old(p.buckets)[bucketName].objects + {StartupScript(d), ShutdownScript(d)})
  {
    var startup := UploadStartupScript(p, imageFamily, bucketName, cluster, size, secretName);
    if startup.Err? {
      return Err(startup.error);
    }
    var shutdown := UploadShutdownScript(p, imageFamily, bucketName);
    if shutdown.Err? {
      return Err(shutdown.error);
    }
    return Ok(ScriptUrls(startup.value, shutdown.value));
  }
}
