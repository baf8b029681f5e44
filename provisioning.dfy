/**
 * The four steps both cluster orchestrators run first, in this order
 * (shared/core/update_cluster.py and core/create_cluster.py): the admin
 * secret, a fresh KMS key, the bucket encrypted with it, and the startup
 * and shutdown scripts uploaded into that bucket. The first failure ends
 * the run; what the earlier steps made stays.
 */
module Provisioning {
  import opened Common
  import opened Cloud
  import Entities
  import Kms
  import KmsDiscovery
  import Secrets
  import Storage

  /** What the steps hand on to the template step. */
  datatype Provisioned = Provisioned(secretName: string, key: KeyRef, scripts: Storage.ScriptUrls)

  function ClusterSecret(project: string, c: Entities.ClusterSpec): string {
    Secrets.SecretPath(project, Secrets.SecretName(c.name))
  }

  /** The key the key step mints for the cluster. */
  function ClusterKey(project: string, c: Entities.ClusterSpec, suffix: string): string {
    Kms.KeyPath(project, c.region, Kms.RingId(c.name), Kms.KeyId(c.name, suffix))
  }

  /** The bucket holds both of the family's scripts. */
  predicate ScriptsUploaded(s: CloudState, bucket: string, imageFamily: string) {
    Storage.DistroOf(imageFamily).Ok? && bucket in s.buckets &&
    Storage.StartupScript(Storage.DistroOf(imageFamily).value) in s.buckets[bucket].objects &&
    Storage.ShutdownScript(Storage.DistroOf(imageFamily).value) in s.buckets[bucket].objects
  }

  /** Only secrets, the KMS state and buckets differ, and the log only grew. */
  predicate OnlyProvisioned(s0: CloudState, s1: CloudState) {
    s1 == s0.(secrets := s1.secrets, keyRings := s1.keyRings, keys := s1.keys, policies := s1.policies,
              buckets := s1.buckets, log := s1.log) &&
    s0.log <= s1.log
  }

  /**
   * The step a cluster run got to: the one that failed, or the template
   * step once the four provisioning steps succeeded. Neither orchestrator
   * gets past the template step.
   */
  datatype Step = AtLookup | AtSecret | AtKey | AtBucket | AtScripts | AtTemplate

  /** No key ring, key or key policy differs. */
  predicate KmsKept(s0: CloudState, s1: CloudState) {
    s1.keyRings == s0.keyRings && s1.keys == s0.keys && s1.policies == s0.policies
  }

  /**
   * What a run that got to `step` left behind: nothing from the steps not
   * run, and what each step before it made.
   */
  predicate Reached(s0: CloudState, s1: CloudState, project: string, c: Entities.ClusterSpec, suffix: string, step: Step) {
    match step
    case AtLookup =>
      s1.secrets == s0.secrets && KmsKept(s0, s1) && s1.buckets == s0.buckets
    case AtSecret =>
      KmsKept(s0, s1) && s1.buckets == s0.buckets
    case AtKey =>
      ClusterSecret(project, c) in s1.secrets && s1.buckets == s0.buckets
    case AtBucket =>
      ClusterSecret(project, c) in s1.secrets && ClusterKey(project, c, suffix) in s1.keys
    case AtScripts =>
      ClusterSecret(project, c) in s1.secrets && ClusterKey(project, c, suffix) in s1.keys
    case AtTemplate =>
      ClusterSecret(project, c) in s1.secrets && ClusterKey(project, c, suffix) in s1.keys &&
      ScriptsUploaded(s1, c.bucket, c.template.imageFamily)
  }

  /** Steps that touch none of secrets, the KMS state and buckets, before or after, keep what was reached. */
  lemma ReachedAcross(s0: CloudState, s1: CloudState, s2: CloudState, s3: CloudState,
                      project: string, c: Entities.ClusterSpec, suffix: string, step: Step)
    requires s1.secrets == s0.secrets && KmsKept(s0, s1) && s1.buckets == s0.buckets
    requires s3.secrets == s2.secrets && KmsKept(s2, s3) && s3.buckets == s2.buckets
    requires Reached(s1, s2, project, c, suffix, step)
    ensures Reached(s0, s3, project, c, suffix, step)
  {
  }

  lemma SecretStep(s0: CloudState, s1: CloudState)
    requires s1 == s0.(secrets := s1.secrets, log := s1.log) && s0.log <= s1.log
    ensures OnlyProvisioned(s0, s1) && s1.keys == s0.keys && s1.buckets == s0.buckets
  {
  }

  lemma KmsStep(s0: CloudState, s1: CloudState, s2: CloudState)
    requires OnlyProvisioned(s0, s1) && Kms.OnlyKmsChanged(s1, s2)
    ensures OnlyProvisioned(s0, s2) && s2.secrets == s1.secrets && s2.buckets == s1.buckets
  {
  }

  lemma BucketStep(s0: CloudState, s1: CloudState, s2: CloudState)
    requires OnlyProvisioned(s0, s1) && s2 == s1.(buckets := s2.buckets, log := s2.log) && s1.log <= s2.log
    ensures OnlyProvisioned(s0, s2) && s2.secrets == s1.secrets && s2.keys == s1.keys
  {
  }

  /**
   * Secret, key, bucket, scripts. Each step runs only once the one before
   * it succeeded: keys change only with the secret in place, buckets only
   * with the key minted. On success the secret and the key exist and the
   * bucket holds both scripts, whose public URLs are handed on.
   */
  method Provision(p: Provider, c: Entities.ClusterSpec, suffix: string,
                   storageAccount: Option<string>, computeAccount: Option<string>)
    returns (r: Result<Provisioned>, ghost step: Step)
    modifies p
    ensures Reached(old(p.State()), p.State(), p.project, c, suffix, step) && step != AtLookup
    ensures r.Ok? <==> step == AtTemplate
    ensures step == AtSecret || step == AtKey ==> r == Err(Exit(1))
    ensures OnlyProvisioned(old(p.State()), p.State())
    ensures c.credentials.None? && !old(Secrets.SecretFound(p, ClusterSecret(p.project, c))) ==>
      r == Err(Exit(1)) && p.State() == old(p.State()).(log := p.log)
    ensures p.keys != old(p.keys) ==> ClusterSecret(p.project, c) in p.secrets
    ensures p.buckets != old(p.buckets) ==> ClusterKey(p.project, c, suffix) in p.keys
    ensures r.Ok? ==>
      r.value.secretName == Secrets.SecretName(c.name) &&
      ClusterSecret(p.project, c) in p.secrets && ClusterKey(p.project, c, suffix) in p.keys &&
      ScriptsUploaded(p.State(), c.bucket, c.template.imageFamily) &&
      (var d := Storage.DistroOf(c.template.imageFamily).value;
       r.value.scripts == Storage.ScriptUrls(PublicUrl(c.bucket, Storage.StartupScript(d)), PublicUrl(c.bucket, Storage.ShutdownScript(d))))
  {
    ghost var s0 := p.State();
    var secretAndKey;
    secretAndKey, step := SecretAndKey(p, c, suffix, storageAccount);
    if secretAndKey.Err? {
      return Err(secretAndKey.error), step;
    }
    var (secretName, key) := secretAndKey.value;
    ghost var s2 := p.State();
    var bucket := Storage.SetupCloudStorage(p, c.bucket, c.region, key, computeAccount);
    ghost var s3 := p.State();
    BucketStep(s0, s2, s3);
    if bucket.Err? {
      return Err(bucket.error), AtBucket;
    }
    var scripts := Storage.UploadScripts(p, c.template.imageFamily, c.bucket, c.name, c.size, secretName);
    BucketStep(s0, s3, p.State());
    if scripts.Err? {
      return Err(scripts.error), AtScripts;
    }
    assert ScriptsUploaded(p.State(), c.bucket, c.template.imageFamily);
    return Ok(Provisioned(secretName, key, scripts.value)), AtTemplate;
  }

  /**
   * The first two steps: the secret, then the key, which is minted only once
   * the secret step succeeded.
   */
  method SecretAndKey(p: Provider, c: Entities.ClusterSpec, suffix: string, storageAccount: Option<string>)
    returns (r: Result<(string, KeyRef)>, ghost step: Step)
    modifies p
    ensures Reached(old(p.State()), p.State(), p.project, c, suffix, step)
    ensures step == AtSecret || step == AtKey || step == AtBucket
    ensures r.Ok? <==> step == AtBucket
    ensures r.Err? ==> r == Err(Exit(1))
    ensures OnlyProvisioned(old(p.State()), p.State()) && p.buckets == old(p.buckets)
    ensures c.credentials.None? && !old(Secrets.SecretFound(p, ClusterSecret(p.project, c))) ==>
      r == Err(Exit(1)) && p.State() == old(p.State()).(log := p.log)
    ensures p.keys != old(p.keys) ==> ClusterSecret(p.project, c) in p.secrets
    ensures r.Ok? ==>
      r.value.0 == Secrets.SecretName(c.name) &&
      ClusterSecret(p.project, c) in p.secrets && ClusterKey(p.project, c, suffix) in p.keys
  {
    ghost var s0 := p.State();
    var secretName := Secrets.SetupSecretManager(p, c.name, c.credentials);
    ghost var s1 := p.State();
    SecretStep(s0, s1);
    if secretName.Err? {
      return Err(secretName.error), AtSecret;
    }
    var key := KmsDiscovery.SetupEncryptionKeys(p, c.name, c.region, suffix, storageAccount);
    KmsStep(s0, s1, p.State());
    if key.Err? {
      return Err(key.error), AtKey;
    }
    return Ok((secretName.value, key.value)), AtBucket;
  }
}
