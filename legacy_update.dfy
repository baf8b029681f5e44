/**
 * The command-line cluster update (cmd/update_cluster.py). It checks the
 * group, then runs the secret, key and bucket steps with the older client
 * helpers. The bucket step calls a one-argument helper with three
 * arguments, so every run that gets that far stops there: the command
 * never completes, and no bucket, template, group or firewall rule is ever
 * changed by it.
 */
module LegacyUpdate {
  import opened Common
  import opened Cloud
  import Entities
  import Kms
  import Secrets
  import RegionalGroup
  import LegacyKms
  import LegacySecrets

  /**
   * setup_secret_manager: without credentials a missing secret exits and an
   * existing one is kept; with credentials a missing secret is created and
   * one raw version is added. The answer is the secret's name.
   */
  method SetupSecretManager(p: Provider, cluster: string, credentials: Option<Entities.Credentials>)
    returns (r: Result<string>)
    modifies p
    ensures p.State() == old(p.State()).(secrets := p.secrets, log := p.log)
    ensures r.Ok? ==> r.value == Secrets.SecretName(cluster)
    ensures var path := Secrets.SecretPath(p.project, Secrets.SecretName(cluster));
      r == Err(Exit(1)) <==> credentials.None? && !old(Secrets.SecretFound(p, path))
    ensures r.Err? && r.error != Exit(1) ==> r.error.ApiError? || r.error.AttributeError?
    ensures var path := Secrets.SecretPath(p.project, Secrets.SecretName(cluster));
      |p.log| > |old(p.log)| && p.log[..|old(p.log)| + 1] == old(p.log) + [GetSecret(path)]
    ensures var path := Secrets.SecretPath(p.project, Secrets.SecretName(cluster));
      credentials.None? ==> p.log == old(p.log) + [GetSecret(path)] && p.secrets == old(p.secrets)
    ensures var path := Secrets.SecretPath(p.project, Secrets.SecretName(cluster));
      credentials.Some? && old(Secrets.SecretFound(p, path)) ==>
        p.log == old(p.log) + [GetSecret(path), AddSecretVersion(path, LegacySecrets.RawCredentials(credentials.value))]
    ensures var path := Secrets.SecretPath(p.project, Secrets.SecretName(cluster));
      credentials.Some? && !old(Secrets.SecretFound(p, path)) ==>
        |p.log| > |old(p.log)| + 1 && p.log[|old(p.log)| + 1] == CreateSecret(Secrets.ProjectPath(p.project), Secrets.SecretName(cluster))
    ensures var path := Secrets.SecretPath(p.project, Secrets.SecretName(cluster));
      credentials.Some? && (r.Ok? || r.error.AttributeError?) ==>
        p.secrets == old(p.secrets)[path :=
          if old(Secrets.SecretFound(p, path)) then old(p.secrets)[path] + [LegacySecrets.RawCredentials(credentials.value)]
          else [LegacySecrets.RawCredentials(credentials.value)]]
  {
    var name := Secrets.SecretName(cluster);
    ghost var s0 := p.State();
    var secret := Secrets.CheckSecret(p, name);
    ghost var s1 := p.State();
    ghost var path := Secrets.SecretPath(p.project, name);
    if credentials.None? {
      r := if secret.None? then Err(Exit(1)) else Ok(name);
    } else {
      var stored;
      if secret.Some? {
        stored := LegacySecrets.AddVersion(p, name, credentials.value);
        LogPair(s0.log, s1.log, p.log, GetSecret(path), AddSecretVersion(path, LegacySecrets.RawCredentials(credentials.value)));
      } else {
        stored := CreateAndAdd(p, name, credentials.value);
      }
      r := if stored.Err? then Err(stored.error) else Ok(name);
    }
    LogPrefix(s0.log, s1.log, p.log, GetSecret(path));
  }

  /** create_secret and then one version: the credentials branch for a secret the check did not find. */
  method CreateAndAdd(p: Provider, name: string, c: Entities.Credentials) returns (r: Result<Unit>)
    modifies p
    ensures p.State() == old(p.State()).(secrets := p.secrets, log := p.log) && old(p.log) <= p.log
    ensures r.Err? ==> r.error.ApiError? || r.error.AttributeError?
    ensures |p.log| > |old(p.log)| && p.log[|old(p.log)|] == CreateSecret(Secrets.ProjectPath(p.project), name)
    ensures r.Ok? || r.error.AttributeError? ==>
      p.secrets == old(p.secrets)[Secrets.SecretPath(p.project, name) := [LegacySecrets.RawCredentials(c)]]
  {
    ghost var s0 := p.State();
    var created := LegacySecrets.MakeSecret(p, name);
    ghost var s1 := p.State();
    if created.Err? {
      r := Err(created.error);
    } else {
      r := LegacySecrets.AddVersion(p, name, c);
      if r.Ok? || r.error.AttributeError? {
        Secrets.FirstVersion(s0.secrets, s1.secrets, p.secrets, Secrets.SecretPath(p.project, name), LegacySecrets.RawCredentials(c));
      }
    }
    LogHead(s0.log, s1.log, p.log, CreateSecret(Secrets.ProjectPath(p.project), name));
  }

  /**
   * setup_encryption_keys: create the ring when reading it gave nothing,
   * then a fresh key named with this call's suffix, granted to the storage
   * account. Errors are the client's, or the failed read of an empty
   * answer's name.
   */
  method SetupEncryptionKeys(p: Provider, cluster: string, region: string, suffix: string, serviceAccount: Option<string>)
    returns (r: Result<KeyRef>)
    modifies p
    ensures Kms.OnlyKmsChanged(old(p.State()), p.State())
    ensures r.Err? ==> r.error.ApiError? || r.error.AttributeError?
    ensures var ring := Kms.RingPath(p.project, region, Kms.RingId(cluster));
      |p.log| > |old(p.log)| && p.log[|old(p.log)|] == GetKeyRing(ring) &&
      (old(Kms.RingFound(p, ring)) ==> p.keyRings == old(p.keyRings)) &&
      (!old(Kms.RingFound(p, ring)) ==>
        |p.log| > |old(p.log)| + 1 &&
        p.log[|old(p.log)| + 1] == CreateKeyRing(Kms.LocationPath(p.project, region), Kms.RingId(cluster)))
    ensures var path := Kms.KeyPath(p.project, region, Kms.RingId(cluster), Kms.KeyId(cluster, suffix));
      r.Ok? ==>
        path !in old(p.keys) && p.keys == old(p.keys)[path := Kms.SymmetricKey] &&
        Kms.RingPath(p.project, region, Kms.RingId(cluster)) in p.keyRings &&
        path in p.policies && p.policies[path] == (if path in old(p.policies) then old(p.policies)[path] else []) + [Kms.StorageBinding(serviceAccount)] &&
        r.value in {NoKey, KeyObject(path)}
  {
    var ringId := Kms.RingId(cluster);
    var ring := Kms.ReadKeyRing(p, region, ringId);
    if ring.None? {
      var created := LegacyKms.MakeKeyRing(p, region, ringId);
      if created.Err? {
        return Err(created.error);
      }
    }
    r := LegacyKms.CreateSymmetricKey(p, region, ringId, Kms.KeyId(cluster, suffix), serviceAccount);
  }

  const CreateBucketArity := "create_bucket() takes 1 positional argument but 3 were given"

  /** setup_cloud_storage: lib/storage.py's create_bucket takes the bucket name only, so the first call fails. */
  function SetupCloudStorage(bucket: string, region: string, key: KeyRef): (r: Result<Bucket>)
    ensures r.Err? && r.error.TypeError?
  {
    Err(TypeError(CreateBucketArity))
  }

  /**
   * setup_instance_template: read the image, then the template. That
   * lookup raises when the template is missing and an existing template
   * exits with status 1, so the step never yields a template and changes
   * nothing.
   */
  method SetupInstanceTemplate(p: Provider, t: Entities.TemplateSpec) returns (r: Result<Template>)
    modifies p
    ensures r.Err?
    ensures p.State() == old(p.State()).(log := p.log)
    ensures var image := GetImage(t.imageProject, t.imageFamily);
      var imageFound := image !in p.faults && (t.imageProject, t.imageFamily) in p.images;
      (!imageFound ==> p.log == old(p.log) + [image] && r.error.ApiError?) &&
      (imageFound ==> (p.log == old(p.log) + [image, GetTemplate(t.name)] &&
        (r.error == Exit(1) <==> GetTemplate(t.name) !in p.faults && t.name in p.templates) &&
        (r.error != Exit(1) ==> r.error.ApiError?)))
  {
    var image := p.GetFromFamily(t.imageProject, t.imageFamily);
    if image.Err? {
      return Err(image.error);
    }
    var template := p.GetTemplateCall(t.name);
    if template.Err? {
      return Err(template.error);
    }
    return Err(Exit(1));
  }

  /** update_mig: the group updater it calls is not defined in lib/regional_managed_instance.py. */
  function UpdateMig(cluster: Entities.ClusterSpec, template: Template): (r: Result<Unit>)
    ensures r.Err? && r.error.NameError?
  {
    Err(NameError("update_region_managed_instance_group"))
  }

  /**
   * update_cluster: a missing group exits with status 1 before anything
   * else; otherwise the secret and key steps run, and a run that gets past
   * them stops at the bucket step. The command never succeeds and never
   * reaches the bucket, template, group or firewall changes.
   */
  method UpdateCluster(p: Provider, c: Entities.ClusterSpec, suffix: string, serviceAccount: Option<string>)
    returns (r: Result<Unit>)
    modifies p
    ensures r.Err?
    ensures p.templates == old(p.templates) && p.buckets == old(p.buckets) && p.firewalls == old(p.firewalls)
    ensures p.disks == old(p.disks) && p.console == old(p.console) && p.groups.Keys == old(p.groups).Keys
    ensures |p.log| > |old(p.log)| && p.log[|old(p.log)|] == GetGroup(c.name)
    ensures var groupFound := GetGroup(c.name) !in p.faults && c.name in old(p.groups);
      var secret := Secrets.SecretPath(p.project, Secrets.SecretName(c.name));
      (!groupFound ==> p.log == old(p.log) + [GetGroup(c.name)] && p.State().(groups := old(p.groups), log := old(p.log)) == old(p.State())) &&
      (r.error == Exit(1) <==> !groupFound || (c.credentials.None? && !old(Secrets.SecretFound(p, secret))))
    ensures var key := Kms.KeyPath(p.project, c.region, Kms.RingId(c.name), Kms.KeyId(c.name, suffix));
      r.error.TypeError? ==> (r.error == TypeError(CreateBucketArity) &&
        key !in old(p.keys) && key in p.keys && p.keys[key] == Kms.SymmetricKey &&
        Secrets.SecretPath(p.project, Secrets.SecretName(c.name)) in p.secrets)
  {
    ghost var s0 := p.State();
    var group := RegionalGroup.GetRegionGroup(p, c.name);
    ghost var s1 := p.State();
    if group.None? {
      return Err(Exit(1));
    }
    var key := SecretAndKey(p, c, suffix, serviceAccount);
    LogHeadKept(s0.log, s1.log, p.log);
    if key.Err? {
      return Err(key.error);
    }
    var bucket := SetupCloudStorage(c.bucket, c.region, key.value);
    return Err(bucket.error);
  }

  /**
   * The secret step, then the key step once the secret step succeeded.
   * Only secrets and the KMS state change; the only exit is the secret
   * step's, which leaves the KMS state as it was, and on success the
   * secret exists and the fresh key was minted.
   */
  method SecretAndKey(p: Provider, c: Entities.ClusterSpec, suffix: string, serviceAccount: Option<string>)
    returns (r: Result<KeyRef>)
    modifies p
    ensures p.templates == old(p.templates) && p.buckets == old(p.buckets) && p.firewalls == old(p.firewalls)
    ensures p.disks == old(p.disks) && p.console == old(p.console) && p.groups == old(p.groups) && old(p.log) <= p.log
    ensures r == Err(Exit(1)) <==>
      c.credentials.None? && !old(Secrets.SecretFound(p, Secrets.SecretPath(p.project, Secrets.SecretName(c.name))))
    ensures r == Err(Exit(1)) ==> p.keys == old(p.keys) && p.keyRings == old(p.keyRings) && p.policies == old(p.policies)
    ensures r.Err? ==> !r.error.TypeError?
    ensures var key := Kms.KeyPath(p.project, c.region, Kms.RingId(c.name), Kms.KeyId(c.name, suffix));
      r.Ok? ==>
        key !in old(p.keys) && key in p.keys && p.keys[key] == Kms.SymmetricKey &&
        Secrets.SecretPath(p.project, Secrets.SecretName(c.name)) in p.secrets
  {
    var secretName := SetupSecretManager(p, c.name, c.credentials);
    if secretName.Err? {
      return Err(secretName.error);
    }
    var key := SetupEncryptionKeys(p, c.name, c.region, suffix, serviceAccount);
    if key.Err? {
      return Err(key.error);
    }
    return Ok(key.value);
  }
}
