/**
 * The command-line tool's KMS helpers (lib/kms.py): the same ring and key
 * paths as the cluster library's, with no typed errors: whatever the client
 * raises reaches the caller, and an empty answer fails where its name is
 * logged.
 */
module LegacyKms {
  import opened Common
  import opened Cloud
  import Kms
  import Storage

  /** create_key_ring: the client's error is raised; an empty answer fails on its name after the ring exists. */
  method MakeKeyRing(p: Provider, location: string, ringId: string) returns (r: Result<Unit>)
    modifies p
    ensures var req := CreateKeyRing(Kms.LocationPath(p.project, location), ringId);
      var path := Kms.RingPath(p.project, location, ringId);
      p.log == old(p.log) + [req] &&
      (r.Ok? <==> req !in p.faults && path !in old(p.keyRings) && req !in p.silent) &&
      (req !in p.faults && path !in old(p.keyRings) ==>
        p.State() == old(p.State()).(keyRings := old(p.keyRings) + {path}, log := p.log)) &&
      (req in p.faults || path in old(p.keyRings) ==> r.Err? && r.error.ApiError? && p.State() == old(p.State()).(log := p.log)) &&
      (req !in p.faults && path !in old(p.keyRings) && req in p.silent ==> r == Err(AttributeError(Storage.NoNameOnNone)))
  {
    var created := p.CreateKeyRingCall(Kms.LocationPath(p.project, location), ringId);
    if created.Err? {
      return Err(created.error);
    }
    if created.value.None? {
      return Err(AttributeError(Storage.NoNameOnNone));
    }
    return Ok(Unit);
  }

  /**
   * assign_permission_to_storage: append the storage account's
   * encrypt/decrypt binding to the key's policy; both the read and the write
   * raise the client's error.
   */
  method AssignPermissionToStorage(p: Provider, ringId: string, keyId: string, location: string, serviceAccount: Option<string>)
    returns (r: Result<Unit>)
    modifies p
    ensures var path := Kms.KeyPath(p.project, location, ringId, keyId);
      var bindings := (if path in old(p.policies) then old(p.policies)[path] else []) + [Kms.StorageBinding(serviceAccount)];
      Kms.OnlyKmsChanged(old(p.State()), p.State()) && p.keyRings == old(p.keyRings) && p.keys == old(p.keys) &&
      (r.Ok? <==> GetPolicy(path) !in p.faults && SetPolicy(path, bindings) !in p.faults && (path in p.keyRings || path in p.keys)) &&
      (r.Ok? ==> p.policies == old(p.policies)[path := bindings]) &&
      (r.Err? ==> r.error.ApiError? && p.policies == old(p.policies))
  {
    var path := Kms.KeyPath(p.project, location, ringId, keyId);
    var policy := p.GetPolicyCall(path);
    if policy.Err? {
      return Err(policy.error);
    }
    var stored := p.SetPolicyCall(path, policy.value + [Kms.StorageBinding(serviceAccount)]);
    if stored.Err? {
      return Err(stored.error);
    }
    return Ok(Unit);
  }

  /**
   * create_key_symmetric_encrypt_decrypt: create the key, grant the storage
   * account on it, and answer the created key (None when the answer was
   * empty). The grant is made even then.
   */
  method CreateSymmetricKey(p: Provider, location: string, ringId: string, keyId: string, serviceAccount: Option<string>)
    returns (r: Result<KeyRef>)
    modifies p
    ensures Kms.OnlyKmsChanged(old(p.State()), p.State()) && p.keyRings == old(p.keyRings)
    ensures r.Err? ==> r.error.ApiError?
    ensures var ring := Kms.RingPath(p.project, location, ringId);
      var path := Kms.KeyPath(p.project, location, ringId, keyId);
      var req := CreateCryptoKey(ring, keyId, Kms.SymmetricKey);
      (req in p.faults || ring !in p.keyRings || path in old(p.keys) ==>
        r.Err? && p.keys == old(p.keys) && p.policies == old(p.policies)) &&
      (req !in p.faults && ring in p.keyRings && path !in old(p.keys) ==>
        p.keys == old(p.keys)[path := Kms.SymmetricKey]) &&
      (r.Ok? ==>
        req !in p.faults && ring in p.keyRings && path !in old(p.keys) &&
        p.policies == old(p.policies)[path := (if path in old(p.policies) then old(p.policies)[path] else []) + [Kms.StorageBinding(serviceAccount)]] &&
        r.value == if req in p.silent then NoKey else KeyObject(path))
  {
    var ring := Kms.RingPath(p.project, location, ringId);
    var created := p.CreateCryptoKeyCall(ring, keyId, Kms.SymmetricKey);
    if created.Err? {
      return Err(created.error);
    }
    assert ring + "/cryptoKeys/" + keyId == Kms.KeyPath(p.project, location, ringId, keyId);
    var granted := AssignPermissionToStorage(p, ringId, keyId, location, serviceAccount);
    if granted.Err? {
      return Err(granted.error);
    }
    return Ok(if created.value.None? then NoKey else KeyObject(Kms.KeyPath(p.project, location, ringId, keyId)));
  }

  /** get_key_symmetric_encrypt_decrypt: the key, or None when reading it fails in any way (an empty answer included). */
  method GetSymmetricKey(p: Provider, location: string, ringId: string, keyId: string) returns (r: Option<CryptoKey>)
    modifies p
    ensures var path := Kms.KeyPath(p.project, location, ringId, keyId);
      p.State() == old(p.State()).(log := old(p.log) + [GetCryptoKey(path)]) &&
      (r.Some? <==> GetCryptoKey(path) !in p.faults && path in p.keys && GetCryptoKey(path) !in p.silent) &&
      (r.Some? ==> r.value == p.keys[path])
  {
    var got := p.GetCryptoKeyCall(Kms.KeyPath(p.project, location, ringId, keyId));
    if got.Err? {
      return None;
    }
    return got.value;
  }
}
