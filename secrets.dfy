/**
 * The Couchbase admin credentials secret (shared/discovery/secrets_manager.py):
 * `<cluster>-admin-creds` is kept when no credentials are given, created
 * when it is missing and credentials are given, and in that case gets one
 * new version holding "username:password" in Base64. Every failure ends the
 * process.
 */
module Secrets {
  import opened Common
  import opened Cloud
  import Base64
  import Entities

  function SecretName(cluster: string): string {
    cluster + "-admin-creds"
  }

  function ProjectPath(project: string): string {
    "projects/" + project
  }

  function SecretPath(project: string, name: string): string {
    ProjectPath(project) + "/secrets/" + name
  }

  /** The version payload: the UTF-8 bytes of "username:password", Base64-encoded. */
  function CredentialsPayload(c: Entities.Credentials): Payload {
    Base64Text(Base64.Encode(Base64.Utf8(c.username + ":" + c.password)))
  }

  /** Decoding the stored payload gives back exactly the credentials' UTF-8 bytes. */
  lemma CredentialsPayloadDecodes(c: Entities.Credentials)
    ensures Base64.Decode(CredentialsPayload(c).data) == Some(Base64.Utf8(c.username + ":" + c.password))
  {
    Base64.DecodeEncode(Base64.Utf8(c.username + ":" + c.password));
  }

  /** `__check_secret`: the secret, or None when reading it fails in any way. */
  method CheckSecret(p: Provider, name: string) returns (r: Option<string>)
    modifies p
    ensures var path := SecretPath(p.project, name);
      p.State() == old(p.State()).(log := old(p.log) + [GetSecret(path)]) &&
      (r.Some? <==> GetSecret(path) !in p.faults && path in p.secrets) &&
      (r.Some? ==> r.value == path)
  {
    var got := p.GetSecretCall(SecretPath(p.project, name));
    if got.Err? {
      return None;
    }
    return Some(got.value);
  }

  /** `__create_secret`: an error or an empty answer exits with status 1. */
  method MakeSecret(p: Provider, name: string) returns (r: Result<Unit>)
    modifies p
    ensures var req := CreateSecret(ProjectPath(p.project), name);
      var path := SecretPath(p.project, name);
      p.log == old(p.log) + [req] && (r.Err? ==> r.error == Exit(1)) &&
      if req !in p.faults && path !in old(p.secrets) then
        p.State() == old(p.State()).(secrets := old(p.secrets)[path := []], log := p.log) && (r.Ok? <==> req !in p.silent)
      else
        p.State() == old(p.State()).(log := p.log) && r.Err?
  {
    var created := p.CreateSecretCall(ProjectPath(p.project), name);
    if created.Err? || created.value.None? {
      return Err(Exit(1));
    }
    return Ok(Unit);
  }

  /** `__add_latest_secret_version`: one new version with the Base64 payload; an error or an empty answer exits with status 1. */
  method AddLatestSecretVersion(p: Provider, name: string, c: Entities.Credentials) returns (r: Result<Unit>)
    modifies p
    ensures var path := SecretPath(p.project, name);
      var req := AddSecretVersion(path, CredentialsPayload(c));
      p.log == old(p.log) + [req] && (r.Err? ==> r.error == Exit(1)) &&
      if req !in p.faults && path in old(p.secrets) then
        p.State() == old(p.State()).(secrets := old(p.secrets)[path := old(p.secrets)[path] + [CredentialsPayload(c)]], log := p.log) &&
        (r.Ok? <==> req !in p.silent)
      else
        p.State() == old(p.State()).(log := p.log) && r.Err?
  {
    var added := p.AddSecretVersionCall(SecretPath(p.project, name), CredentialsPayload(c));
    if added.Err? || added.value.None? {
      return Err(Exit(1));
    }
    return Ok(Unit);
  }

  /** The existence check finds the secret. */
  predicate SecretFound(p: Provider, path: string)
    reads p
  {
    GetSecret(path) !in p.faults && path in p.secrets
  }

  /**
   * setup_secret_manager. Without credentials a missing secret exits and an
   * existing one is left as it is; with credentials a missing secret is
   * created first, and then exactly one version with the credentials is
   * added. The answer is the secret's name.
   */
  method SetupSecretManager(p: Provider, cluster: string, credentials: Option<Entities.Credentials>)
    returns (r: Result<string>)
    modifies p
    ensures p.State() == old(p.State()).(secrets := p.secrets, log := p.log)
    ensures r.Ok? ==> r.value == SecretName(cluster)
    ensures r.Err? ==> r.error == Exit(1)
    ensures var path := SecretPath(p.project, SecretName(cluster));
      |p.log| > |old(p.log)| && p.log[..|old(p.log)| + 1] == old(p.log) + [GetSecret(path)]
    ensures var path := SecretPath(p.project, SecretName(cluster));
      credentials.None? ==>
        p.log == old(p.log) + [GetSecret(path)] && p.secrets == old(p.secrets) && (r.Ok? <==> old(SecretFound(p, path)))
    ensures var path := SecretPath(p.project, SecretName(cluster));
      credentials.Some? && old(SecretFound(p, path)) ==>
        p.log == old(p.log) + [GetSecret(path), AddSecretVersion(path, CredentialsPayload(credentials.value))]
    ensures var path := SecretPath(p.project, SecretName(cluster));
      credentials.Some? && !old(SecretFound(p, path)) ==>
        |p.log| > |old(p.log)| + 1 && p.log[|old(p.log)| + 1] == CreateSecret(ProjectPath(p.project), SecretName(cluster))
    ensures var path := SecretPath(p.project, SecretName(cluster));
      credentials.Some? && r.Ok? ==>
        p.secrets == old(p.secrets)[path :=
          if old(SecretFound(p, path)) then old(p.secrets)[path] + [CredentialsPayload(credentials.value)]
          else [CredentialsPayload(credentials.value)]]
  {
    var name := SecretName(cluster);
    ghost var s0 := p.State();
    var secret := CheckSecret(p, name);
    ghost var s1 := p.State();
    if credentials.None? {
      r := if secret.None? then Err(Exit(1)) else Ok(name);
    } else {
      var stored;
      if secret.Some? {
        stored := AddLatestSecretVersion(p, name, credentials.value);
        LogPair(s0.log, s1.log, p.log, GetSecret(SecretPath(p.project, name)),
                AddSecretVersion(SecretPath(p.project, name), CredentialsPayload(credentials.value)));
      } else {
        stored := CreateAndAdd(p, name, credentials.value);
      }
      r := if stored.Err? then Err(stored.error) else Ok(name);
    }
    LogPrefix(s0.log, s1.log, p.log, GetSecret(SecretPath(p.project, name)));
  }

  /** create_secret and then one version: the credentials branch for a secret the check did not find. */
  method CreateAndAdd(p: Provider, name: string, c: Entities.Credentials) returns (r: Result<Unit>)
    modifies p
    ensures p.State() == old(p.State()).(secrets := p.secrets, log := p.log) && old(p.log) <= p.log
    ensures r.Err? ==> r.error == Exit(1)
    ensures |p.log| > |old(p.log)| && p.log[|old(p.log)|] == CreateSecret(ProjectPath(p.project), name)
    ensures r.Ok? ==> p.secrets == old(p.secrets)[SecretPath(p.project, name) := [CredentialsPayload(c)]]
  {
    ghost var s0 := p.State();
    var created := MakeSecret(p, name);
    ghost var s1 := p.State();
    if created.Err? {
      r := Err(created.error);
    } else {
      r := AddLatestSecretVersion(p, name, c);
      if r.Ok? {
        FirstVersion(s0.secrets, s1.secrets, p.secrets, SecretPath(p.project, name), CredentialsPayload(c));
      }
    }
    LogHead(s0.log, s1.log, p.log, CreateSecret(ProjectPath(p.project), name));
  }

  /** A version added to a secret just created is its only version. */
  lemma FirstVersion(m0: map<string, seq<Payload>>, m1: map<string, seq<Payload>>, m2: map<string, seq<Payload>>,
                     path: string, x: Payload)
    requires m1 == m0[path := []] && m2 == m1[path := m1[path] + [x]]
    ensures m2 == m0[path := [x]]
  {
    assert [] + [x] == [x];
  }
}
