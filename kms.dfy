/**
 * The cluster's KMS key (shared/lib/kms.py): the key ring
 * `key-ring-<cluster>` is created when it cannot be read, a fresh symmetric
 * key `key-<cluster>-<suffix>` is created in it on every call, and the
 * storage service account is granted encrypt/decrypt on that key.
 */
module Kms {
  import opened Common
  import opened Cloud

  const EncrypterDecrypter := "roles/cloudkms.cryptoKeyEncrypterDecrypter"

  /** What every key is created as; a new key's primary version is enabled. */
  const SymmetricKey := CryptoKey("ENCRYPT_DECRYPT", "GOOGLE_SYMMETRIC_ENCRYPTION", true)

  function RingId(cluster: string): string {
    "key-ring-" + cluster
  }

  /** The key id: the cluster's name and the random hex suffix of the call. */
  function KeyId(cluster: string, suffix: string): string {
    "key-" + cluster + "-" + suffix
  }

  function LocationPath(project: string, location: string): string {
    "projects/" + project + "/locations/" + location
  }

  function RingPath(project: string, location: string, ringId: string): string {
    LocationPath(project, location) + "/keyRings/" + ringId
  }

  function KeyPath(project: string, location: string, ringId: string, keyId: string): string {
    RingPath(project, location, ringId) + "/cryptoKeys/" + keyId
  }

  /** An f-string renders a missing environment variable as "None". */
  function Rendered(value: Option<string>): string {
    if value.Some? then value.value else "None"
  }

  /** The grant for the storage service account read from CLOUD_STORAGE_SERVICE_ACCOUNT_EMAIL. */
  function StorageBinding(serviceAccount: Option<string>): Binding {
    Binding(EncrypterDecrypter, [Principal("serviceAccount:" + Rendered(serviceAccount))])
  }

  /** Key paths of a ring are equal exactly when the key ids are. */
  lemma KeyPathInjective(project: string, location: string, ringId: string, k1: string, k2: string)
    ensures KeyPath(project, location, ringId, k1) == KeyPath(project, location, ringId, k2) <==> k1 == k2
  {
    var prefix := RingPath(project, location, ringId) + "/cryptoKeys/";
    assert KeyPath(project, location, ringId, k1) == prefix + k1;
    assert KeyPath(project, location, ringId, k2) == prefix + k2;
    assert (prefix + k1)[|prefix|..] == k1;
    assert (prefix + k2)[|prefix|..] == k2;
  }

  /** is_key_enabled: the primary version of the key is ENABLED. */
  predicate IsKeyEnabled(key: CryptoKey) {
    key.primaryEnabled
  }

  /** Only the KMS part of the cloud differs, and the log only grew. */
  predicate OnlyKmsChanged(s0: CloudState, s1: CloudState) {
    s1 == s0.(keyRings := s1.keyRings, keys := s1.keys, policies := s1.policies, log := s1.log) && s0.log <= s1.log
  }

  /** `__get_key_ring`: the ring, or None when reading it fails in any way. */
  method ReadKeyRing(p: Provider, location: string, ringId: string) returns (r: Option<string>)
    modifies p
    ensures var path := RingPath(p.project, location, ringId);
      p.State() == old(p.State()).(log := old(p.log) + [GetKeyRing(path)]) &&
      (r.Some? <==> GetKeyRing(path) !in p.faults && path in p.keyRings && GetKeyRing(path) !in p.silent) &&
      (r.Some? ==> r.value == path)
  {
    var got := p.GetKeyRingCall(RingPath(p.project, location, ringId));
    if got.Err? {
      return None;
    }
    return got.value;
  }

  const RingCreationHead := "Error creating key ring "
  const PermissionHead := "Error assigning permission to storage for key "
  const KeyCreationHead := "Error creating key "

  function RingCreationError(project: string, ringId: string): Error {
    Internal(KeyRingCreationFailed, RingCreationHead + ringId + " in project " + project)
  }

  /**
   * `__create_key_ring`: create the ring; any failure becomes the typed
   * ring-creation error. That includes an empty answer, whose missing
   * `name` fails the success log inside the handler, after the ring was
   * created.
   */
  method MakeKeyRing(p: Provider, location: string, ringId: string) returns (r: Result<Unit>)
    modifies p
    ensures var req := CreateKeyRing(LocationPath(p.project, location), ringId);
      var path := RingPath(p.project, location, ringId);
      p.log == old(p.log) + [req] &&
      (r.Ok? <==> req !in p.faults && path !in old(p.keyRings) && req !in p.silent) &&
      (r.Err? ==> r.error == RingCreationError(p.project, ringId)) &&
      (req !in p.faults && path !in old(p.keyRings) ==>
        p.State() == old(p.State()).(keyRings := old(p.keyRings) + {path}, log := p.log)) &&
      (req in p.faults || path in old(p.keyRings) ==> p.State() == old(p.State()).(log := p.log))
  {
    var created := p.CreateKeyRingCall(LocationPath(p.project, location), ringId);
    if created.Err? || created.value.None? {
      return Err(RingCreationError(p.project, ringId));
    }
    return Ok(Unit);
  }

  function PermissionError(project: string, ringId: string, keyId: string): Error {
    Internal(KeyPermissionAssignmentFailed,
      PermissionHead + keyId + " in key ring " + ringId + " in project " + project)
  }

  /**
   * `__assign_permission_to_storage`: add the storage account's
   * encrypt/decrypt binding to the key's policy. A failing read raises the
   * client's error; a failing write raises the typed permission error.
   */
  method AssignPermissionToStorage(p: Provider, ringId: string, keyId: string, location: string, serviceAccount: Option<string>)
    returns (r: Result<Unit>)
    modifies p
    ensures var path := KeyPath(p.project, location, ringId, keyId);
      OnlyKmsChanged(old(p.State()), p.State()) && p.keyRings == old(p.keyRings) && p.keys == old(p.keys) &&
      (r.Ok? ==> p.policies == old(p.policies)[path :=
        (if path in old(p.policies) then old(p.policies)[path] else []) + [StorageBinding(serviceAccount)]]) &&
      (r.Err? ==> p.policies == old(p.policies)) &&
      (r.Ok? ==> GetPolicy(path) !in p.faults && (path in p.keyRings || path in p.keys))
    ensures var path := KeyPath(p.project, location, ringId, keyId);
      (r.Err? && GetPolicy(path) !in p.faults && (path in p.keyRings || path in p.keys)) ==>
        r.error == PermissionError(p.project, ringId, keyId)
  {
    var path := KeyPath(p.project, location, ringId, keyId);
    var policy := p.GetPolicyCall(path);
    if policy.Err? {
      return Err(policy.error);
    }
    var stored := p.SetPolicyCall(path, policy.value + [StorageBinding(serviceAccount)]);
    if stored.Err? {
      return Err(PermissionError(p.project, ringId, keyId));
    }
    return Ok(Unit);
  }

  function KeyCreationError(project: string, ringId: string, keyId: string): Error {
    Internal(KeyCreationFailed, KeyCreationHead + keyId + " in key ring " + ringId + " in project " + project)
  }

  /**
   * `__create_key_symmetric_encrypt_decrypt`: create the key in the ring and
   * grant the storage account on it. Whatever fails, the key creation or
   * the grant, surfaces as the typed key-creation error.
   */
  method CreateSymmetricKey(p: Provider, location: string, ringId: string, keyId: string, serviceAccount: Option<string>)
    returns (r: Result<KeyRef>)
    modifies p
    ensures OnlyKmsChanged(old(p.State()), p.State()) && p.keyRings == old(p.keyRings)
    ensures r.Err? ==> r.error == KeyCreationError(p.project, ringId, keyId)
    ensures var ring := RingPath(p.project, location, ringId);
      var path := KeyPath(p.project, location, ringId, keyId);
      var req := CreateCryptoKey(ring, keyId, SymmetricKey);
      (r.Ok? ==>
        req !in p.faults && ring in p.keyRings && path !in old(p.keys) &&
        p.keys == old(p.keys)[path := SymmetricKey] &&
        p.policies == old(p.policies)[path := (if path in old(p.policies) then old(p.policies)[path] else []) + [StorageBinding(serviceAccount)]] &&
        r.value == if req in p.silent then NoKey else KeyObject(path)) &&
      (req in p.faults || ring !in p.keyRings || path in old(p.keys) ==> r.Err? && p.keys == old(p.keys))
  {
    var ring := RingPath(p.project, location, ringId);
    var created := p.CreateCryptoKeyCall(ring, keyId, SymmetricKey);
    if created.Err? {
      return Err(KeyCreationError(p.project, ringId, keyId));
    }
    assert ring + "/cryptoKeys/" + keyId == KeyPath(p.project, location, ringId, keyId);
    var granted := AssignPermissionToStorage(p, ringId, keyId, location, serviceAccount);
    if granted.Err? {
      return Err(KeyCreationError(p.project, ringId, keyId));
    }
    return Ok(if created.value.None? then NoKey else KeyObject(created.value.value));
  }

  /** The ring is created only when reading it gave nothing. */
  predicate RingFound(p: Provider, path: string)
    reads p
  {
    GetKeyRing(path) !in p.faults && path in p.keyRings && GetKeyRing(path) !in p.silent
  }

  /**
   * setup_encryption_keys: make sure the ring exists, then create a new key
   * named with this call's suffix. On success the key did not exist before:
   * no key is ever reused.
   */
  method SetupEncryptionKeys(p: Provider, cluster: string, region: string, suffix: string, serviceAccount: Option<string>)
    returns (r: Result<KeyRef>)
    modifies p
    ensures OnlyKmsChanged(old(p.State()), p.State())
    ensures var ring := RingPath(p.project, region, RingId(cluster));
      |p.log| > |old(p.log)| && p.log[|old(p.log)|] == GetKeyRing(ring) &&
      (old(RingFound(p, ring)) ==> p.keyRings == old(p.keyRings)) &&
      (!old(RingFound(p, ring)) ==>
        |p.log| > |old(p.log)| + 1 &&
        p.log[|old(p.log)| + 1] == CreateKeyRing(LocationPath(p.project, region), RingId(cluster)))
    ensures r.Err? ==>
      r.error in {RingCreationError(p.project, RingId(cluster)), KeyCreationError(p.project, RingId(cluster), KeyId(cluster, suffix))}
    ensures var path := KeyPath(p.project, region, RingId(cluster), KeyId(cluster, suffix));
      r.Ok? ==>
        path !in old(p.keys) && p.keys == old(p.keys)[path := SymmetricKey] &&
        RingPath(p.project, region, RingId(cluster)) in p.keyRings &&
        path in p.policies && p.policies[path] == (if path in old(p.policies) then old(p.policies)[path] else []) + [StorageBinding(serviceAccount)] &&
        r.value in {NoKey, KeyObject(path)}
  {
    var ringId := RingId(cluster);
    var ring := ReadKeyRing(p, region, ringId);
    if ring.None? {
      var created := MakeKeyRing(p, region, ringId);
      if created.Err? {
        return Err(created.error);
      }
    }
    r := CreateSymmetricKey(p, region, ringId, KeyId(cluster, suffix), serviceAccount);
  }

  /** The key a successful setup leaves behind is enabled and is a symmetric encrypt/decrypt key. */
  lemma SetupKeyEnabled(keys: map<string, CryptoKey>, path: string)
    requires path in keys && keys[path] == SymmetricKey
    ensures IsKeyEnabled(keys[path])
    ensures keys[path].purpose == "ENCRYPT_DECRYPT" && keys[path].algorithm == "GOOGLE_SYMMETRIC_ENCRYPTION"
  {
  }

  /** Two setups with different suffixes create two different keys. */
  lemma DistinctSuffixesDistinctKeys(project: string, region: string, cluster: string, s1: string, s2: string)
    requires s1 != s2
    ensures KeyPath(project, region, RingId(cluster), KeyId(cluster, s1)) != KeyPath(project, region, RingId(cluster), KeyId(cluster, s2))
  {
    var prefix := "key-" + cluster + "-";
    assert KeyId(cluster, s1) == prefix + s1 && KeyId(cluster, s2) == prefix + s2;
    assert (prefix + s1)[|prefix|..] == s1;
    assert (prefix + s2)[|prefix|..] == s2;
    KeyPathInjective(project, region, RingId(cluster), KeyId(cluster, s1), KeyId(cluster, s2));
  }
}
