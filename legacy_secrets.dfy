/**
 * The command-line tool's secret helpers (lib/secrets_manager.py): the same
 * secret as the cluster library's, but failures are raised as the client
 * raises them, and a version holds the raw UTF-8 bytes of
 * "username:password" rather than their Base64 text.
 */
module LegacySecrets {
  import opened Common
  import opened Cloud
  import Base64
  import Entities
  import Secrets
  import Storage

  /** add_latest_secret_version's payload: the UTF-8 bytes, sent with their CRC32C checksum. */
  function RawCredentials(c: Entities.Credentials): Payload {
    RawBytes(Base64.Utf8(c.username + ":" + c.password))
  }

  /** Both clients store the same bytes: the library's Base64 text decodes to this client's raw payload. */
  lemma RawMatchesEncoded(c: Entities.Credentials)
    ensures Base64.Decode(Secrets.CredentialsPayload(c).data) == Some(RawCredentials(c).bytes)
  {
    Secrets.CredentialsPayloadDecodes(c);
  }

  /** create_secret: with no handler the client's error is raised; the answer is never read. */
  method MakeSecret(p: Provider, name: string) returns (r: Result<Unit>)
    modifies p
    ensures var req := CreateSecret(Secrets.ProjectPath(p.project), name);
      var path := Secrets.SecretPath(p.project, name);
      p.log == old(p.log) + [req] &&
      (r.Ok? <==> req !in p.faults && path !in old(p.secrets)) &&
      (r.Ok? ==> p.State() == old(p.State()).(secrets := old(p.secrets)[path := []], log := p.log)) &&
      (r.Err? ==> r.error.ApiError? && p.State() == old(p.State()).(log := p.log))
  {
    var created := p.CreateSecretCall(Secrets.ProjectPath(p.project), name);
    if created.Err? {
      return Err(created.error);
    }
    return Ok(Unit);
  }

  /**
   * add_latest_secret_version: one new version with the raw payload. An
   * error is raised; an empty answer fails when its name is logged, after
   * the version was added.
   */
  method AddVersion(p: Provider, name: string, c: Entities.Credentials) returns (r: Result<Unit>)
    modifies p
    ensures var path := Secrets.SecretPath(p.project, name);
      var req := AddSecretVersion(path, RawCredentials(c));
      p.log == old(p.log) + [req] &&
      (r.Ok? <==> req !in p.faults && path in old(p.secrets) && req !in p.silent) &&
      (req in p.faults || path !in old(p.secrets) ==>
        r.Err? && r.error.ApiError? && p.State() == old(p.State()).(log := p.log)) &&
      (req !in p.faults && path in old(p.secrets) ==>
        p.State() == old(p.State()).(secrets := old(p.secrets)[path := old(p.secrets)[path] + [RawCredentials(c)]], log := p.log)) &&
      (req !in p.faults && path in old(p.secrets) && req in p.silent ==> r == Err(AttributeError(Storage.NoNameOnNone)))
  {
    var added := p.AddSecretVersionCall(Secrets.SecretPath(p.project, name), RawCredentials(c));
    if added.Err? {
      return Err(added.error);
    }
    if added.value.None? {
      return Err(AttributeError(Storage.NoNameOnNone));
    }
    return Ok(Unit);
  }
}
