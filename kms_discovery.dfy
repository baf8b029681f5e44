/**
 * The cluster's KMS key through the REST discovery client (discovery/kms.py),
 * which the cluster orchestrators use: the same ring and key names as the
 * library client, but failures end the process, an empty answer is passed
 * on as None, the key comes back as a dict, and the storage grant goes on
 * the key ring rather than on the key.
 */
module KmsDiscovery {
  import opened Common
  import opened Cloud
  import Kms

  /** The dict a created key is answered with; only its name is read afterwards. */
  function KeyResource(path: string): KeyRef {
    KeyDict(map["name" := path])
  }

  /** `__create_key_ring`: any error exits with status 1; an empty answer is None. */
  method MakeKeyRing(p: Provider, location: string, ringId: string) returns (r: Result<Option<string>>)
    modifies p
    ensures var req := CreateKeyRing(Kms.LocationPath(p.project, location), ringId);
      var path := Kms.RingPath(p.project, location, ringId);
      p.log == old(p.log) + [req] &&
      (r.Ok? <==> req !in p.faults && path !in old(p.keyRings)) &&
      (r.Ok? ==> (r.value == (if req in p.silent then None else Some(path)) &&
        p.State() == old(p.State()).(keyRings := old(p.keyRings) + {path}, log := p.log))) &&
      (r.Err? ==> r.error == Exit(1) && p.State() == old(p.State()).(log := p.log))
  {
    var created := p.CreateKeyRingCall(Kms.LocationPath(p.project, location), ringId);
    if created.Err? {
      return Err(Exit(1));
    }
    return Ok(created.value);
  }

  /**
   * `__assign_permission_to_storage`: read the ring's policy (no bindings
   * when it has none), append exactly one encrypt/decrypt binding for the
   * storage account and write the policy back. Errors are raised as they
   * come; an empty answer to the write is None.
   */
  method AssignPermissionToRing(p: Provider, ringId: string, location: string, serviceAccount: Option<string>)
    returns (r: Result<Option<seq<Binding>>>)
    modifies p
    ensures Kms.OnlyKmsChanged(old(p.State()), p.State()) && p.keyRings == old(p.keyRings) && p.keys == old(p.keys)
    ensures var ring := Kms.RingPath(p.project, location, ringId);
      var bindings := (if ring in old(p.policies) then old(p.policies)[ring] else []) + [Kms.StorageBinding(serviceAccount)];
      (r.Ok? <==> GetPolicy(ring) !in p.faults && SetPolicy(ring, bindings) !in p.faults && (ring in p.keyRings || ring in p.keys)) &&
      (r.Ok? ==> (p.policies == old(p.policies)[ring := bindings] &&
        r.value == if SetPolicy(ring, bindings) in p.silent then None else Some(bindings))) &&
      (r.Err? ==> p.policies == old(p.policies) && r.error.ApiError?)
  {
    var ring := Kms.RingPath(p.project, location, ringId);
    var policy := p.GetPolicyCall(ring);
    if policy.Err? {
      return Err(policy.error);
    }
    r := p.SetPolicyCall(ring, policy.value + [Kms.StorageBinding(serviceAccount)]);
  }

  /**
   * `__create_key_symmetric_encrypt_decrypt`: create the key; when the
   * answer is empty stop with None, otherwise grant the storage account on
   * the ring and answer the key. Any error, the grant's included, exits
   * with status 1.
   */
  method CreateSymmetricKey(p: Provider, location: string, ringId: string, keyId: string, serviceAccount: Option<string>)
    returns (r: Result<KeyRef>)
    modifies p
    ensures Kms.OnlyKmsChanged(old(p.State()), p.State()) && p.keyRings == old(p.keyRings)
    ensures r.Err? ==> r.error == Exit(1)
    ensures var ring := Kms.RingPath(p.project, location, ringId);
      var path := Kms.KeyPath(p.project, location, ringId, keyId);
      var req := CreateCryptoKey(ring, keyId, Kms.SymmetricKey);
      (req in p.faults || ring !in p.keyRings || path in old(p.keys) ==> r.Err? && p.keys == old(p.keys)) &&
      (r.Ok? ==>
        req !in p.faults && ring in p.keyRings && path !in old(p.keys) &&
        p.keys == old(p.keys)[path := Kms.SymmetricKey] &&
        (req in p.silent ==> r.value == NoKey && p.policies == old(p.policies)) &&
        (req !in p.silent ==> (r.value == KeyResource(path) &&
          p.policies == old(p.policies)[ring := (if ring in old(p.policies) then old(p.policies)[ring] else []) + [Kms.StorageBinding(serviceAccount)]])))
  {
    var ring := Kms.RingPath(p.project, location, ringId);
    var created := p.CreateCryptoKeyCall(ring, keyId, Kms.SymmetricKey);
    if created.Err? {
      return Err(Exit(1));
    }
    if created.value.None? {
      return Ok(NoKey);
    }
    assert ring + "/cryptoKeys/" + keyId == Kms.KeyPath(p.project, location, ringId, keyId);
    var granted := AssignPermissionToRing(p, ringId, location, serviceAccount);
    if granted.Err? {
      return Err(Exit(1));
    }
    return Ok(KeyResource(created.value.value));
  }

  /** `__get_key_symmetric_encrypt_decrypt`: unlike the ring lookup, errors are raised to the caller. */
  method GetSymmetricKey(p: Provider, location: string, ringId: string, keyId: string) returns (r: Result<Option<CryptoKey>>)
    modifies p
    ensures var path := Kms.KeyPath(p.project, location, ringId, keyId);
      p.State() == old(p.State()).(log := old(p.log) + [GetCryptoKey(path)]) &&
      (r.Ok? <==> GetCryptoKey(path) !in p.faults && path in p.keys) &&
      (r.Err? ==> r.error.ApiError?) &&
      (r.Ok? ==> r.value == if GetCryptoKey(path) in p.silent then None else Some(p.keys[path]))
  {
    r := p.GetCryptoKeyCall(Kms.KeyPath(p.project, location, ringId, keyId));
  }

  /**
   * setup_encryption_keys: create the ring when reading it gave nothing,
   * then create a fresh key named with this call's suffix. The only error
   * is the process exit.
   */
  method SetupEncryptionKeys(p: Provider, cluster: string, region: string, suffix: string, serviceAccount: Option<string>)
    returns (r: Result<KeyRef>)
    modifies p
    ensures Kms.OnlyKmsChanged(old(p.State()), p.State())
    ensures r.Err? ==> r.error == Exit(1)
    ensures var ring := Kms.RingPath(p.project, region, Kms.RingId(cluster));
      |p.log| > |old(p.log)| && p.log[|old(p.log)|] == GetKeyRing(ring) &&
      (old(Kms.RingFound(p, ring)) ==> p.keyRings == old(p.keyRings)) &&
      (!old(Kms.RingFound(p, ring)) ==>
        |p.log| > |old(p.log)| + 1 &&
        p.log[|old(p.log)| + 1] == CreateKeyRing(Kms.LocationPath(p.project, region), Kms.RingId(cluster)))
    ensures var path := Kms.KeyPath(p.project, region, Kms.RingId(cluster), Kms.KeyId(cluster, suffix));
      r.Ok? ==>
        path !in old(p.keys) && p.keys == old(p.keys)[path := Kms.SymmetricKey] &&
        Kms.RingPath(p.project, region, Kms.RingId(cluster)) in p.keyRings &&
        r.value in {NoKey, KeyResource(path)}
  {
    var ringId := Kms.RingId(cluster);
    var ring := Kms.ReadKeyRing(p, region, ringId);
    if ring.None? {
      var created := MakeKeyRing(p, region, ringId);
      if created.Err? {
        return Err(created.error);
      }
    }
    r := CreateSymmetricKey(p, region, ringId, Kms.KeyId(cluster, suffix), serviceAccount);
  }
}
