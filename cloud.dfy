/**
 * The Google Cloud project the orchestrator talks to, reduced to the
 * resources it reads and writes: instance templates, regional managed
 * instance groups and their members, zonal disks, KMS key rings, keys and
 * IAM policies, Secret Manager secrets and their versions, storage buckets
 * and firewall rules.
 *
 * Every SDK call is one method of `Provider`. Each call is appended to the
 * request log; a call listed in `faults` is refused (or its long-running
 * operation ends in error) and changes nothing else. Serial-console reads
 * and group stability are oracles held in the state.
 */
module Cloud {
  import opened Common
  import opened JsonValue
  import Base64

  /** A URL path segment: GCP names, zones and project ids never hold '/'. */
  predicate NoSlash(s: string) {
    forall i :: 0 <= i < |s| ==> s[i] != '/'
  }

  type Segment = s: string | NoSlash(s) witness ""

  const ComputeApi := "https://www.googleapis.com/compute/v1/projects/"

  /** The `instance` URL a group lists for one of its members. */
  function InstanceUrl(project: string, zone: string, name: string): string {
    ComputeApi + project + "/zones/" + zone + "/instances/" + name
  }

  /** The `self_link` of an instance template. */
  function TemplateLink(project: string, name: string): string {
    ComputeApi + project + "/global/instanceTemplates/" + name
  }

  // ---------------------------------------------------------------- compute

  /** The KMS key of an attached disk; `KmsKey(None)` when a key dict had no 'name'. */
  datatype Encryption = Unencrypted | KmsKey(kmsKeyName: Option<string>)

  /** An AttachedDisk with its initialize_params flattened. */
  datatype AttachedDisk = AttachedDisk(
    encryption: Encryption,
    sourceImage: string,
    sizeGb: Json,
    diskType: Json,
    autoDelete: Json,
    boot: Json,
    deviceName: string)

  datatype MetadataItem = MetadataItem(key: string, value: string)

  datatype ServiceAccount = ServiceAccount(email: string, scopes: seq<string>)

  datatype AccessConfig = AccessConfig(name: string, kind: string, networkTier: string)

  datatype Template = Template(
    name: string,
    machineType: string,
    tags: seq<string>,
    network: string,
    accessConfigs: seq<AccessConfig>,
    labels: map<string, string>,
    disks: seq<AttachedDisk>,
    serviceAccounts: seq<ServiceAccount>,
    metadata: seq<MetadataItem>)

  /** An update policy; `None` leaves a field unset. */
  datatype UpdatePolicy = UpdatePolicy(
    kind: Option<string>,
    minimalAction: Option<string>,
    mostDisruptiveAllowedAction: Option<string>,
    replacementMethod: Option<string>,
    maxSurgeFixed: Option<int>,
    redistribution: Option<string>)

  /** A PATCH merges: the fields the patch sets win. */
  function MergePolicy(base: UpdatePolicy, patch: UpdatePolicy): (p: UpdatePolicy)
    ensures patch.kind.Some? ==> p.kind == patch.kind
    ensures patch.kind.None? ==> p.kind == base.kind
  {
    UpdatePolicy(
      if patch.kind.Some? then patch.kind else base.kind,
      if patch.minimalAction.Some? then patch.minimalAction else base.minimalAction,
      if patch.mostDisruptiveAllowedAction.Some? then patch.mostDisruptiveAllowedAction else base.mostDisruptiveAllowedAction,
      if patch.replacementMethod.Some? then patch.replacementMethod else base.replacementMethod,
      if patch.maxSurgeFixed.Some? then patch.maxSurgeFixed else base.maxSurgeFixed,
      if patch.redistribution.Some? then patch.redistribution else base.redistribution)
  }

  /** The InstanceGroupManager resource of an insert request. */
  datatype GroupRequest = GroupRequest(
    name: string,
    baseInstanceName: string,
    templateLink: string,
    targetSize: int,
    preservedDisks: map<string, string>,   // device name -> auto_delete
    targetShape: string,
    policy: UpdatePolicy)

  datatype Version = Version(templateLink: string, name: string)

  /**
   * A regional managed instance group. Its target size is its member
   * count; `settling` is how many more reads report it not yet stable.
   */
  datatype Group = Group(
    name: string,
    templateLink: string,
    versions: seq<Version>,
    preservedDisks: map<string, string>,
    targetShape: string,
    policy: UpdatePolicy,
    members: seq<string>,
    settling: nat)
  {
    function TargetSize(): nat { |members| }
  }

  /** One entry of a create_instances request. */
  datatype NewInstance = NewInstance(name: string, masterHostname: Option<string>)

  datatype Disk = Disk(name: string, typeUrl: string, sizeGb: int, sourceImage: string)

  datatype FirewallRule = FirewallRule(
    name: string,
    direction: string,
    protocol: string,
    ports: seq<string>,
    sourceRanges: seq<string>,
    network: string,
    description: string,
    targetTags: seq<string>)

  // -------------------------------------------------------- KMS, IAM, secrets

  datatype CryptoKey = CryptoKey(purpose: string, algorithm: string, primaryEnabled: bool)

  /**
   * A policy member as the caller hands it over: a principal string such as
   * `serviceAccount:<email>`, or a one-entry dictionary such as
   * `{"user": <email>}`, which is passed on as it is.
   */
  datatype Member = Principal(id: string) | Record(key: string, value: string)

  datatype Binding = Binding(role: string, members: seq<Member>)

  /**
   * A KMS key as the code hands it around: None, a resource-name string, a
   * dict, or a CryptoKey message (of which only the name matters).
   */
  datatype KeyRef = NoKey | KeyText(text: string) | KeyDict(entries: map<string, string>) | KeyObject(name: string)

  /** Python truthiness of a key: empty strings and dicts are false, and so is a message with no field set. */
  predicate KeyTruthy(key: KeyRef) {
    match key
    case NoKey => false
    case KeyText(text) => text != ""
    case KeyDict(entries) => entries != map[]
    case KeyObject(name) => name != ""
  }

  /** A secret version payload as sent: Base64 text, or raw bytes with their checksum. */
  datatype Payload = Base64Text(data: string) | RawBytes(bytes: seq<Base64.Byte>)

  // ---------------------------------------------------------------- storage

  datatype Bucket = Bucket(
    location: Option<string>,
    defaultKmsKey: Option<string>,
    bindings: seq<Binding>,
    objects: set<string>)

  // --------------------------------------------------------------- requests

  datatype Request =
    | GetImage(imageProject: string, family: string)
    | InsertTemplate(template: Template)
    | GetTemplate(templateName: string)
    | DeleteTemplate(templateName: string)
    | InsertGroup(groupRequest: GroupRequest)
    | GetGroup(groupName: string)
    | PatchGroup(groupName: string, version: Version, patch: UpdatePolicy)
    | ListInstances(groupName: string)
    | CreateInstances(groupName: string, instances: seq<NewInstance>)
    | DeleteInstances(groupName: string, urls: seq<string>)
    | ApplyUpdates(groupName: string, urls: seq<string>)
    | DeleteGroup(groupName: string)
    | SerialOutput(zoneName: string, instance: string)
    | InsertDisk(disk: Disk)
    | GetFirewall(ruleName: string)
    | InsertFirewall(rule: FirewallRule)
    | GetKeyRing(ringPath: string)
    | CreateKeyRing(parent: string, ringId: string)
    | CreateCryptoKey(ringPath: string, keyId: string, key: CryptoKey)
    | GetCryptoKey(keyPath: string)
    | GetPolicy(resource: string)
    | SetPolicy(resource: string, bindings: seq<Binding>)
    | GetSecret(secretPath: string)
    | CreateSecret(parent: string, secretId: string)
    | AddSecretVersion(secretPath: string, payload: Payload)
    | GetBucket(bucketName: string)
    | CreateBucket(bucketName: string, location: Option<string>)
    | PatchBucket(bucketName: string, kmsKey: string)
    | GetBucketPolicy(bucketName: string)
    | SetBucketPolicy(bucketName: string, bindings: seq<Binding>)
    | UploadObject(bucketName: string, objectName: string)

  /**
   * How a faulty call fails: the call itself raises, or the long-running
   * operation it starts ends with an error code.
   */
  datatype Fault = Rejected(text: string) | Failed(text: string)

  /** A plain client call that fails raises the client's error. */
  function CallError(f: Fault): Error {
    ApiError(f.text)
  }

  const NotFound := "404 Not Found"
  const Conflict := "409 Already Exists"

  /**
   * utils/shared.py's wait_for_extended_operation: an operation ending in
   * error raises GCPOperationFailedException with the operation's message.
   */
  function Wait(f: Option<Fault>): (r: Result<Unit>)
    ensures r.Ok? <==> f.None?
    ensures f.Some? && f.value.Failed? ==> r == Err(Internal(OperationFailed, f.value.text))
  {
    match f
    case None => Ok(Unit)
    case Some(Rejected(text)) => Err(ApiError(text))
    case Some(Failed(text)) => Err(Internal(OperationFailed, text))
  }

  /**
   * utils/gcp.py's wait_for_extended_operation: it re-raises the
   * operation's own exception (or a RuntimeError).
   */
  function LegacyWait(f: Option<Fault>): (r: Result<Unit>)
    ensures r.Ok? <==> f.None?
    ensures f.Some? ==> r == Err(ApiError(f.value.text))
  {
    if f.None? then Ok(Unit) else Err(ApiError(f.value.text))
  }

  /** A snapshot of everything a Provider holds that calls can change. */
  datatype CloudState = CloudState(
    templates: map<string, Template>,
    groups: map<string, Group>,
    disks: map<string, Disk>,
    firewalls: map<string, FirewallRule>,
    keyRings: set<string>,
    keys: map<string, CryptoKey>,
    policies: map<string, seq<Binding>>,
    secrets: map<string, seq<Payload>>,
    buckets: map<string, Bucket>,
    console: map<string, seq<string>>,
    log: seq<Request>)

  /** Between two states only the groups and the log differ, and the log only grew. */
  predicate OnlyGroupsChanged(s0: CloudState, s1: CloudState) {
    s1.templates == s0.templates && s1.disks == s0.disks && s1.firewalls == s0.firewalls &&
    s1.keyRings == s0.keyRings && s1.keys == s0.keys && s1.policies == s0.policies &&
    s1.secrets == s0.secrets && s1.buckets == s0.buckets && s1.console == s0.console &&
    s0.log <= s1.log
  }

  lemma OnlyGroupsChangedChain(s0: CloudState, s1: CloudState, s2: CloudState)
    requires OnlyGroupsChanged(s0, s1) && OnlyGroupsChanged(s1, s2)
    ensures OnlyGroupsChanged(s0, s2)
  {
  }

  /** What a step logged first stays first as the log grows. */
  lemma LogHead(l0: seq<Request>, l1: seq<Request>, l2: seq<Request>, x: Request)
    requires l1 == l0 + [x] && l1 <= l2
    ensures |l2| > |l0| && l2[|l0|] == x
  {
    assert l1[|l0|] == x;
  }

  /** What a step logged first stays, after what was logged before it, as the log grows. */
  lemma LogPrefix(l0: seq<Request>, l1: seq<Request>, l2: seq<Request>, x: Request)
    requires l1 == l0 + [x] && l1 <= l2
    ensures |l2| > |l0| && l2[..|l0| + 1] == l0 + [x]
  {
  }

  /** Two steps that each logged one entry logged both, in order. */
  lemma LogPair(l0: seq<Request>, l1: seq<Request>, l2: seq<Request>, x: Request, y: Request)
    requires l1 == l0 + [x] && l2 == l1 + [y]
    ensures l2 == l0 + [x, y]
  {
  }

  /** A step that logged one entry, then a step that logged two, logged all three in order. */
  lemma LogThenPair(l0: seq<Request>, l1: seq<Request>, l2: seq<Request>, x: Request, y: Request, z: Request)
    requires l1 == l0 + [x] && l2 == l1 + [y, z]
    ensures l2 == l0 + [x, y, z]
  {
  }

  /** Two additions to one group's members add both, in order. */
  lemma MembersGrown(m0: map<string, Group>, m1: map<string, Group>, m2: map<string, Group>, name: string,
                     a: seq<string>, b: seq<string>)
    requires name in m0 && m1 == m0[name := m0[name].(members := m0[name].members + a)]
    requires m2 == m1[name := m1[name].(members := m1[name].members + b)]
    ensures m2 == m0[name := m0[name].(members := m0[name].members + a + b)]
  {
  }

  /** The entry a step logged first stays first as the log grows. */
  lemma LogHeadKept(l0: seq<Request>, l1: seq<Request>, l2: seq<Request>)
    requires |l1| > |l0| && l1 <= l2
    ensures |l2| > |l0| && l2[|l0|] == l1[|l0|]
  {
  }

  /** A read logged as `x`, then steps that change only groups: `x` heads what was logged. */
  lemma OnlyGroupsChangedAfter(s0: CloudState, s1: CloudState, s2: CloudState, x: Request)
    requires s1 == s0.(log := s0.log + [x]) && OnlyGroupsChanged(s1, s2)
    ensures OnlyGroupsChanged(s0, s2) && |s2.log| > |s0.log| && s2.log[|s0.log|] == x
  {
    assert s1.log[|s0.log|] == x;
  }

  /** Between two states only group `name` and the log differ, every group stays, and the log only grew. */
  predicate OnlyGroupChanged(s0: CloudState, s1: CloudState, name: string) {
    s1 == s0.(groups := s1.groups, log := s1.log) && s0.log <= s1.log && s1.groups.Keys == s0.groups.Keys &&
    forall n :: n != name && n in s1.groups ==> s1.groups[n] == s0.groups[n]
  }

  /** Replacing one existing group changes only that group. */
  lemma OneGroupPut(s0: CloudState, s1: CloudState, name: string, g: Group)
    requires name in s0.groups && s1 == s0.(groups := s0.groups[name := g], log := s1.log) && s0.log <= s1.log
    ensures OnlyGroupChanged(s0, s1, name)
  {
  }

  lemma OnlyGroupChangedChain(s0: CloudState, s1: CloudState, s2: CloudState, name: string)
    requires OnlyGroupChanged(s0, s1, name) && OnlyGroupChanged(s1, s2, name)
    ensures OnlyGroupChanged(s0, s2, name)
  {
  }

  lemma OnlyGroupChangedFrame(s0: CloudState, s1: CloudState, name: string)
    requires OnlyGroupChanged(s0, s1, name)
    ensures OnlyGroupsChanged(s0, s1) && s1.groups.Keys == s0.groups.Keys
    ensures forall n :: n != name && n in s1.groups ==> s1.groups[n] == s0.groups[n]
  {
  }

  /**
   * Read a group until it reports stable, as both group creators do after
   * the insert: the first failed read ends the wait; every read moves the
   * group one step closer to stable and changes nothing else.
   */
  method PollUntilStable(p: Provider, name: string) returns (r: Result<Group>)
    modifies p
    requires name in p.groups
    ensures r.Ok? <==> GetGroup(name) !in p.faults
    ensures OnlyGroupChanged(old(p.State()), p.State(), name)
    ensures name in p.groups && p.groups[name] == old(p.groups)[name].(settling := p.groups[name].settling)
    ensures r.Ok? ==> r.value == p.groups[name] && r.value.settling == 0
  {
    ghost var s0 := p.State();
    var g, stable := p.GetGroupCall(name);
    if g.Err? {
      return Err(g.error);
    }
    while !stable
      invariant GetGroup(name) !in p.faults && g.Ok?
      invariant OnlyGroupChanged(s0, p.State(), name)
      invariant name in p.groups && p.groups[name] == s0.groups[name].(settling := p.groups[name].settling)
      invariant stable ==> g.value == p.groups[name] && p.groups[name].settling == 0
      decreases p.groups[name].settling + (if stable then 0 else 1)
    {
      g, stable := p.GetGroupCall(name);
    }
    return Ok(g.value);
  }

  /** A group inserted as `name`, then steps that change only that group: every other group is as it was. */
  lemma InsertedThenChanged(s0: CloudState, s1: CloudState, s2: CloudState, name: string, created: Group)
    requires s1 == s0.(groups := s0.groups[name := created], log := s1.log) && s0.log <= s1.log
    requires OnlyGroupChanged(s1, s2, name)
    ensures OnlyGroupsChanged(s0, s2) && name in s2.groups
    ensures forall n :: n != name ==> (n in s2.groups <==> n in s0.groups)
    ensures forall n :: n != name && n in s2.groups ==> s2.groups[n] == s0.groups[n]
  {
  }

  /** Between two states only the serial consoles and the log differ, and the log only grew. */
  predicate OnlyConsoleRead(s0: CloudState, s1: CloudState) {
    s1.templates == s0.templates && s1.groups == s0.groups && s1.disks == s0.disks &&
    s1.firewalls == s0.firewalls && s1.keyRings == s0.keyRings && s1.keys == s0.keys &&
    s1.policies == s0.policies && s1.secrets == s0.secrets && s1.buckets == s0.buckets &&
    s0.log <= s1.log
  }

  lemma OnlyConsoleReadChain(s0: CloudState, s1: CloudState, s2: CloudState)
    requires OnlyConsoleRead(s0, s1) && OnlyConsoleRead(s1, s2)
    ensures OnlyConsoleRead(s0, s2)
    ensures s2.log == s0.log + s1.log[|s0.log|..] + s2.log[|s1.log|..]
  {
  }

  /** The URLs a create_instances request adds, in request order. */
  function NewUrls(project: string, zone: string, instances: seq<NewInstance>): (urls: seq<string>)
    ensures |urls| == |instances|
    ensures forall k :: 0 <= k < |urls| ==> urls[k] == InstanceUrl(project, zone, instances[k].name)
  {
    if instances == [] then []
    else [InstanceUrl(project, zone, instances[0].name)] + NewUrls(project, zone, instances[1..])
  }

  /** Remove the listed URLs from a member list, keeping the order of the rest. */
  function Without(members: seq<string>, urls: seq<string>): (rest: seq<string>)
    ensures |rest| <= |members|
    ensures forall u :: u in rest <==> u in members && u !in urls
  {
    if members == [] then []
    else if members[0] in urls then Without(members[1..], urls)
    else [members[0]] + Without(members[1..], urls)
  }

  class Provider {
    const project: Segment
    const zone: Segment
    /** (image project, family) -> self link of the newest image of that family. */
    const images: map<(string, string), string>
    /** The calls that fail, and how. */
    const faults: map<Request, Fault>
    /** Discovery-client calls whose `execute()` answers None. */
    const silent: set<Request>
    /** How many status reads a newly inserted group reports as not yet stable. */
    const settleReads: nat

    var templates: map<string, Template>
    var groups: map<string, Group>
    var disks: map<string, Disk>
    var firewalls: map<string, FirewallRule>
    var keyRings: set<string>
    var keys: map<string, CryptoKey>
    var policies: map<string, seq<Binding>>
    var secrets: map<string, seq<Payload>>
    var buckets: map<string, Bucket>
    /** Instance name -> the serial-console contents its next reads return. */
    var console: map<string, seq<string>>
    var log: seq<Request>

    function State(): CloudState
      reads this
    {
      CloudState(templates, groups, disks, firewalls, keyRings, keys, policies, secrets, buckets, console, log)
    }

    constructor (project: Segment, zone: Segment, images: map<(string, string), string>,
                 faults: map<Request, Fault>, silent: set<Request>, settleReads: nat, initial: CloudState)
      ensures this.project == project && this.zone == zone && this.images == images
      ensures this.faults == faults && this.silent == silent && this.settleReads == settleReads
      ensures State() == initial
    {
      this.project := project;
      this.zone := zone;
      this.images := images;
      this.faults := faults;
      this.silent := silent;
      this.settleReads := settleReads;
      templates := initial.templates;
      groups := initial.groups;
      disks := initial.disks;
      firewalls := initial.firewalls;
      keyRings := initial.keyRings;
      keys := initial.keys;
      policies := initial.policies;
      secrets := initial.secrets;
      buckets := initial.buckets;
      console := initial.console;
      log := initial.log;
    }

    // ------------------------------------------------------------ images

    method GetFromFamily(imageProject: string, family: string) returns (r: Result<string>)
      modifies this
      ensures State() == old(State()).(log := old(log) + [GetImage(imageProject, family)])
      ensures r.Ok? <==> GetImage(imageProject, family) !in faults && (imageProject, family) in images
      ensures r.Err? ==> r.error.ApiError?
      ensures r.Ok? ==> r.value == images[(imageProject, family)]
    {
      var req := GetImage(imageProject, family);
      log := log + [req];
      if req in faults {
        return Err(CallError(faults[req]));
      }
      if (imageProject, family) !in images {
        return Err(ApiError(NotFound));
      }
      return Ok(images[(imageProject, family)]);
    }

    // --------------------------------------------------------- templates

    /** InstanceTemplatesClient.insert: a long-running operation. */
    method InsertTemplateCall(t: Template) returns (f: Option<Fault>)
      modifies this
      ensures var req := InsertTemplate(t);
        if req in faults then f == Some(faults[req]) && State() == old(State()).(log := old(log) + [req])
        else if t.name in old(templates) then f == Some(Rejected(Conflict)) && State() == old(State()).(log := old(log) + [req])
        else f == None && State() == old(State()).(templates := old(templates)[t.name := t], log := old(log) + [req])
    {
      var req := InsertTemplate(t);
      log := log + [req];
      if req in faults {
        return Some(faults[req]);
      }
      if t.name in templates {
        return Some(Rejected(Conflict));
      }
      templates := templates[t.name := t];
      return None;
    }

    method GetTemplateCall(name: string) returns (r: Result<Template>)
      modifies this
      ensures r.Err? ==> r.error.ApiError?
      ensures State() == old(State()).(log := old(log) + [GetTemplate(name)])
      ensures r.Ok? <==> GetTemplate(name) !in faults && name in templates
      ensures r.Ok? ==> r.value == templates[name]
    {
      var req := GetTemplate(name);
      log := log + [req];
      if req in faults {
        return Err(CallError(faults[req]));
      }
      if name !in templates {
        return Err(ApiError(NotFound));
      }
      return Ok(templates[name]);
    }

    /**
     * InstanceTemplatesClient.delete. The service refuses to delete a template
     * a group still uses; here that refusal, like every other, is a fault
     * the caller planted in `faults`.
     */
    method DeleteTemplateCall(name: string) returns (f: Option<Fault>)
      modifies this
      ensures var req := DeleteTemplate(name);
        if req in faults then f == Some(faults[req]) && State() == old(State()).(log := old(log) + [req])
        else if name !in old(templates) then f == Some(Rejected(NotFound)) && State() == old(State()).(log := old(log) + [req])
        else f == None && State() == old(State()).(templates := old(templates) - {name}, log := old(log) + [req])
    {
      var req := DeleteTemplate(name);
      log := log + [req];
      if req in faults {
        return Some(faults[req]);
      }
      if name !in templates {
        return Some(Rejected(NotFound));
      }
      templates := templates - {name};
      return None;
    }

    // ------------------------------------------------------------ groups

    method InsertGroupCall(g: GroupRequest) returns (f: Option<Fault>)
      modifies this
      ensures var req := InsertGroup(g);
        if req in faults then f == Some(faults[req]) && State() == old(State()).(log := old(log) + [req])
        else if g.name in old(groups) then f == Some(Rejected(Conflict)) && State() == old(State()).(log := old(log) + [req])
        else f == None && State() == old(State()).(
          groups := old(groups)[g.name := Group(g.name, g.templateLink, [], g.preservedDisks, g.targetShape, g.policy, [], settleReads)],
          log := old(log) + [req])
    {
      var req := InsertGroup(g);
      log := log + [req];
      if req in faults {
        return Some(faults[req]);
      }
      if g.name in groups {
        return Some(Rejected(Conflict));
      }
      groups := groups[g.name := Group(g.name, g.templateLink, [], g.preservedDisks, g.targetShape, g.policy, [], settleReads)];
      return None;
    }

    /**
     * RegionInstanceGroupManagersClient.get; the second result is
     * `status.is_stable`, and a read of a settling group brings it one
     * step closer to stable.
     */
    method GetGroupCall(name: string) returns (r: Result<Group>, stable: bool)
      modifies this
      ensures r.Ok? <==> GetGroup(name) !in faults && name in old(groups)
      ensures r.Err? ==> State() == old(State()).(log := old(log) + [GetGroup(name)])
      ensures r.Ok? ==> r.value == old(groups)[name] && stable == (r.value.settling == 0)
      ensures r.Ok? ==> State() == old(State()).(
        groups := old(groups)[name := old(groups)[name].(settling := if stable then 0 else old(groups)[name].settling - 1)],
        log := old(log) + [GetGroup(name)])
    {
      var req := GetGroup(name);
      log := log + [req];
      if req in faults {
        return Err(CallError(faults[req])), false;
      }
      if name !in groups {
        return Err(ApiError(NotFound)), false;
      }
      var g := groups[name];
      stable := g.settling == 0;
      if !stable {
        groups := groups[name := g.(settling := g.settling - 1)];
      }
      return Ok(g), stable;
    }

    method PatchGroupCall(name: string, version: Version, patch: UpdatePolicy) returns (f: Option<Fault>)
      modifies this
      ensures var req := PatchGroup(name, version, patch);
        if req in faults then f == Some(faults[req]) && State() == old(State()).(log := old(log) + [req])
        else if name !in old(groups) then f == Some(Rejected(NotFound)) && State() == old(State()).(log := old(log) + [req])
        else f == None && State() == old(State()).(
          groups := old(groups)[name := old(groups)[name].(
            templateLink := version.templateLink, versions := [version],
            policy := MergePolicy(old(groups)[name].policy, patch))],
          log := old(log) + [req])
    {
      var req := PatchGroup(name, version, patch);
      log := log + [req];
      if req in faults {
        return Some(faults[req]);
      }
      if name !in groups {
        return Some(Rejected(NotFound));
      }
      var g := groups[name];
      groups := groups[name := g.(templateLink := version.templateLink, versions := [version], policy := MergePolicy(g.policy, patch))];
      return None;
    }

    /** list_managed_instances: the members' URLs in the group's order. */
    method ListInstancesCall(name: string) returns (r: Result<seq<string>>)
      modifies this
      ensures State() == old(State()).(log := old(log) + [ListInstances(name)])
      ensures OnlyGroupChanged(old(State()), State(), name)
      ensures r.Ok? <==> ListInstances(name) !in faults && name in groups
      ensures r.Ok? ==> r.value == groups[name].members
    {
      var req := ListInstances(name);
      log := log + [req];
      if req in faults {
        return Err(CallError(faults[req]));
      }
      if name !in groups {
        return Err(ApiError(NotFound));
      }
      return Ok(groups[name].members);
    }

    method CreateInstancesCall(name: string, instances: seq<NewInstance>) returns (f: Option<Fault>)
      modifies this
      ensures OnlyGroupChanged(old(State()), State(), name)
      ensures var req := CreateInstances(name, instances);
        if req in faults then f == Some(faults[req]) && State() == old(State()).(log := old(log) + [req])
        else if name !in old(groups) then f == Some(Rejected(NotFound)) && State() == old(State()).(log := old(log) + [req])
        else f == None && State() == old(State()).(
          groups := old(groups)[name := old(groups)[name].(members := old(groups)[name].members + NewUrls(project, zone, instances))],
          log := old(log) + [req])
    {
      var req := CreateInstances(name, instances);
      log := log + [req];
      if req in faults {
        return Some(faults[req]);
      }
      if name !in groups {
        return Some(Rejected(NotFound));
      }
      var g := groups[name];
      groups := groups[name := g.(members := g.members + NewUrls(project, zone, instances))];
      return None;
    }

    method DeleteInstancesCall(name: string, urls: seq<string>) returns (f: Option<Fault>)
      modifies this
      ensures var req := DeleteInstances(name, urls);
        if req in faults then f == Some(faults[req]) && State() == old(State()).(log := old(log) + [req])
        else if name !in old(groups) then f == Some(Rejected(NotFound)) && State() == old(State()).(log := old(log) + [req])
        else f == None && State() == old(State()).(
          groups := old(groups)[name := old(groups)[name].(members := Without(old(groups)[name].members, urls))],
          log := old(log) + [req])
    {
      var req := DeleteInstances(name, urls);
      log := log + [req];
      if req in faults {
        return Some(faults[req]);
      }
      if name !in groups {
        return Some(Rejected(NotFound));
      }
      var g := groups[name];
      groups := groups[name := g.(members := Without(g.members, urls))];
      return None;
    }

    /** apply_updates_to_instances: the instances are recreated from the group's template. */
    method ApplyUpdatesCall(name: string, urls: seq<string>) returns (f: Option<Fault>)
      modifies this
      ensures State() == old(State()).(log := old(log) + [ApplyUpdates(name, urls)])
      ensures var req := ApplyUpdates(name, urls);
        f == if req in faults then Some(faults[req]) else if name !in groups then Some(Rejected(NotFound)) else None
    {
      var req := ApplyUpdates(name, urls);
      log := log + [req];
      if req in faults {
        return Some(faults[req]);
      }
      if name !in groups {
        return Some(Rejected(NotFound));
      }
      return None;
    }

    method DeleteGroupCall(name: string) returns (f: Option<Fault>)
      modifies this
      ensures var req := DeleteGroup(name);
        if req in faults then f == Some(faults[req]) && State() == old(State()).(log := old(log) + [req])
        else if name !in old(groups) then f == Some(Rejected(NotFound)) && State() == old(State()).(log := old(log) + [req])
        else f == None && State() == old(State()).(groups := old(groups) - {name}, log := old(log) + [req])
    {
      var req := DeleteGroup(name);
      log := log + [req];
      if req in faults {
        return Some(faults[req]);
      }
      if name !in groups {
        return Some(Rejected(NotFound));
      }
      groups := groups - {name};
      return None;
    }

    /**
     * get_serial_port_output: each read returns the instance's next
     * console contents; an instance with nothing left to report fails.
     */
    method SerialOutputCall(zoneName: string, instance: string) returns (r: Result<string>)
      modifies this
      ensures r.Err? ==> r.error.ApiError?
      ensures var req := SerialOutput(zoneName, instance);
        if req in faults || instance !in old(console) || old(console)[instance] == [] then
          r.Err? && State() == old(State()).(log := old(log) + [req])
        else
          r == Ok(old(console)[instance][0]) &&
          State() == old(State()).(console := old(console)[instance := old(console)[instance][1..]], log := old(log) + [req])
    {
      var req := SerialOutput(zoneName, instance);
      log := log + [req];
      if req in faults {
        return Err(CallError(faults[req]));
      }
      if instance !in console || console[instance] == [] {
        return Err(ApiError(NotFound));
      }
      r := Ok(console[instance][0]);
      console := console[instance := console[instance][1..]];
    }

    // ------------------------------------------------------ disks, firewall

    method InsertDiskCall(d: Disk) returns (f: Option<Fault>)
      modifies this
      ensures var req := InsertDisk(d);
        if req in faults then f == Some(faults[req]) && State() == old(State()).(log := old(log) + [req])
        else if d.name in old(disks) then f == Some(Rejected(Conflict)) && State() == old(State()).(log := old(log) + [req])
        else f == None && State() == old(State()).(disks := old(disks)[d.name := d], log := old(log) + [req])
    {
      var req := InsertDisk(d);
      log := log + [req];
      if req in faults {
        return Some(faults[req]);
      }
      if d.name in disks {
        return Some(Rejected(Conflict));
      }
      disks := disks[d.name := d];
      return None;
    }

    method GetFirewallCall(name: string) returns (r: Result<FirewallRule>)
      modifies this
      ensures State() == old(State()).(log := old(log) + [GetFirewall(name)])
      ensures r.Ok? <==> GetFirewall(name) !in faults && name in firewalls
      ensures r.Ok? ==> r.value == firewalls[name]
    {
      var req := GetFirewall(name);
      log := log + [req];
      if req in faults {
        return Err(CallError(faults[req]));
      }
      if name !in firewalls {
        return Err(ApiError(NotFound));
      }
      return Ok(firewalls[name]);
    }

    method InsertFirewallCall(rule: FirewallRule) returns (f: Option<Fault>)
      modifies this
      ensures var req := InsertFirewall(rule);
        if req in faults then f == Some(faults[req]) && State() == old(State()).(log := old(log) + [req])
        else if rule.name in old(firewalls) then f == Some(Rejected(Conflict)) && State() == old(State()).(log := old(log) + [req])
        else f == None && State() == old(State()).(firewalls := old(firewalls)[rule.name := rule], log := old(log) + [req])
    {
      var req := InsertFirewall(rule);
      log := log + [req];
      if req in faults {
        return Some(faults[req]);
      }
      if rule.name in firewalls {
        return Some(Rejected(Conflict));
      }
      firewalls := firewalls[rule.name := rule];
      return None;
    }

    // --------------------------------------------------------------- KMS

    method GetKeyRingCall(path: string) returns (r: Result<Option<string>>)
      modifies this
      ensures r.Err? ==> r.error.ApiError?
      ensures State() == old(State()).(log := old(log) + [GetKeyRing(path)])
      ensures r.Ok? <==> GetKeyRing(path) !in faults && path in keyRings
      ensures r.Ok? ==> r.value == if GetKeyRing(path) in silent then None else Some(path)
    {
      var req := GetKeyRing(path);
      log := log + [req];
      if req in faults {
        return Err(CallError(faults[req]));
      }
      if path !in keyRings {
        return Err(ApiError(NotFound));
      }
      return Ok(if req in silent then None else Some(path));
    }

    /** The key ring is created under `parent`; the answer is its resource name. */
    method CreateKeyRingCall(parent: string, ringId: string) returns (r: Result<Option<string>>)
      modifies this
      ensures r.Err? ==> r.error.ApiError?
      ensures var req := CreateKeyRing(parent, ringId); var path := parent + "/keyRings/" + ringId;
        if req in faults || path in old(keyRings) then
          r.Err? && State() == old(State()).(log := old(log) + [req])
        else
          r == Ok(if req in silent then None else Some(path)) &&
          State() == old(State()).(keyRings := old(keyRings) + {path}, log := old(log) + [req])
    {
      var req := CreateKeyRing(parent, ringId);
      var path := parent + "/keyRings/" + ringId;
      log := log + [req];
      if req in faults {
        return Err(CallError(faults[req]));
      }
      if path in keyRings {
        return Err(ApiError(Conflict));
      }
      keyRings := keyRings + {path};
      return Ok(if req in silent then None else Some(path));
    }

    /** A new key in an existing ring; its resource name is the answer. */
    method CreateCryptoKeyCall(ringPath: string, keyId: string, key: CryptoKey) returns (r: Result<Option<string>>)
      modifies this
      ensures r.Err? ==> r.error.ApiError?
      ensures var req := CreateCryptoKey(ringPath, keyId, key); var path := ringPath + "/cryptoKeys/" + keyId;
        if req in faults || ringPath !in old(keyRings) || path in old(keys) then
          r.Err? && State() == old(State()).(log := old(log) + [req])
        else
          r == Ok(if req in silent then None else Some(path)) &&
          State() == old(State()).(keys := old(keys)[path := key], log := old(log) + [req])
    {
      var req := CreateCryptoKey(ringPath, keyId, key);
      var path := ringPath + "/cryptoKeys/" + keyId;
      log := log + [req];
      if req in faults {
        return Err(CallError(faults[req]));
      }
      if ringPath !in keyRings {
        return Err(ApiError(NotFound));
      }
      if path in keys {
        return Err(ApiError(Conflict));
      }
      keys := keys[path := key];
      return Ok(if req in silent then None else Some(path));
    }

    method GetCryptoKeyCall(path: string) returns (r: Result<Option<CryptoKey>>)
      modifies this
      ensures r.Err? ==> r.error.ApiError?
      ensures State() == old(State()).(log := old(log) + [GetCryptoKey(path)])
      ensures r.Ok? <==> GetCryptoKey(path) !in faults && path in keys
      ensures r.Ok? ==> r.value == if GetCryptoKey(path) in silent then None else Some(keys[path])
    {
      var req := GetCryptoKey(path);
      log := log + [req];
      if req in faults {
        return Err(CallError(faults[req]));
      }
      if path !in keys {
        return Err(ApiError(NotFound));
      }
      return Ok(if req in silent then None else Some(keys[path]));
    }

    /** get_iam_policy on a key ring or key; a resource without a policy has no bindings. */
    method GetPolicyCall(resource: string) returns (r: Result<seq<Binding>>)
      modifies this
      ensures r.Err? ==> r.error.ApiError?
      ensures State() == old(State()).(log := old(log) + [GetPolicy(resource)])
      ensures r.Ok? <==> GetPolicy(resource) !in faults && (resource in keyRings || resource in keys)
      ensures r.Ok? ==> r.value == if resource in policies then policies[resource] else []
    {
      var req := GetPolicy(resource);
      log := log + [req];
      if req in faults {
        return Err(CallError(faults[req]));
      }
      if resource !in keyRings && resource !in keys {
        return Err(ApiError(NotFound));
      }
      return Ok(if resource in policies then policies[resource] else []);
    }

    /** set_iam_policy replaces the resource's bindings with the ones sent. */
    method SetPolicyCall(resource: string, bindings: seq<Binding>) returns (r: Result<Option<seq<Binding>>>)
      modifies this
      ensures r.Err? ==> r.error.ApiError?
      ensures var req := SetPolicy(resource, bindings);
        if req in faults || (resource !in old(keyRings) && resource !in old(keys)) then
          r.Err? && State() == old(State()).(log := old(log) + [req])
        else
          r == Ok(if req in silent then None else Some(bindings)) &&
          State() == old(State()).(policies := old(policies)[resource := bindings], log := old(log) + [req])
    {
      var req := SetPolicy(resource, bindings);
      log := log + [req];
      if req in faults {
        return Err(CallError(faults[req]));
      }
      if resource !in keyRings && resource !in keys {
        return Err(ApiError(NotFound));
      }
      policies := policies[resource := bindings];
      return Ok(if req in silent then None else Some(bindings));
    }

    // ----------------------------------------------------------- secrets

    method GetSecretCall(path: string) returns (r: Result<string>)
      modifies this
      ensures r.Err? ==> r.error.ApiError?
      ensures State() == old(State()).(log := old(log) + [GetSecret(path)])
      ensures r.Ok? <==> GetSecret(path) !in faults && path in secrets
      ensures r.Ok? ==> r.value == path
    {
      var req := GetSecret(path);
      log := log + [req];
      if req in faults {
        return Err(CallError(faults[req]));
      }
      if path !in secrets {
        return Err(ApiError(NotFound));
      }
      return Ok(path);
    }

    /** A new secret with automatic replication and no versions. */
    method CreateSecretCall(parent: string, secretId: string) returns (r: Result<Option<string>>)
      modifies this
      ensures r.Err? ==> r.error.ApiError?
      ensures var req := CreateSecret(parent, secretId); var path := parent + "/secrets/" + secretId;
        if req in faults || path in old(secrets) then
          r.Err? && State() == old(State()).(log := old(log) + [req])
        else
          r == Ok(if req in silent then None else Some(path)) &&
          State() == old(State()).(secrets := old(secrets)[path := []], log := old(log) + [req])
    {
      var req := CreateSecret(parent, secretId);
      var path := parent + "/secrets/" + secretId;
      log := log + [req];
      if req in faults {
        return Err(CallError(faults[req]));
      }
      if path in secrets {
        return Err(ApiError(Conflict));
      }
      secrets := secrets[path := []];
      return Ok(if req in silent then None else Some(path));
    }

    /** addVersion appends the payload as the secret's newest version. */
    method AddSecretVersionCall(path: string, payload: Payload) returns (r: Result<Option<nat>>)
      modifies this
      ensures r.Err? ==> r.error.ApiError?
      ensures var req := AddSecretVersion(path, payload);
        if req in faults || path !in old(secrets) then
          r.Err? && State() == old(State()).(log := old(log) + [req])
        else
          r == Ok(if req in silent then None else Some(|old(secrets)[path]| + 1)) &&
          State() == old(State()).(secrets := old(secrets)[path := old(secrets)[path] + [payload]], log := old(log) + [req])
    {
      var req := AddSecretVersion(path, payload);
      log := log + [req];
      if req in faults {
        return Err(CallError(faults[req]));
      }
      if path !in secrets {
        return Err(ApiError(NotFound));
      }
      r := Ok(if req in silent then None else Some(|secrets[path]| + 1));
      secrets := secrets[path := secrets[path] + [payload]];
    }

    // ----------------------------------------------------------- storage

    method GetBucketCall(name: string) returns (r: Result<Bucket>)
      modifies this
      ensures State() == old(State()).(log := old(log) + [GetBucket(name)])
      ensures r.Ok? <==> GetBucket(name) !in faults && name in buckets
      ensures r.Err? ==> r.error == if GetBucket(name) in faults then CallError(faults[GetBucket(name)]) else ApiError(NotFound)
      ensures r.Ok? ==> r.value == buckets[name]
    {
      var req := GetBucket(name);
      log := log + [req];
      if req in faults {
        return Err(CallError(faults[req]));
      }
      if name !in buckets {
        return Err(ApiError(NotFound));
      }
      return Ok(buckets[name]);
    }

    method CreateBucketCall(name: string, location: Option<string>) returns (r: Result<Unit>)
      modifies this
      ensures var req := CreateBucket(name, location);
        if req in faults || name in old(buckets) then
          r.Err? && State() == old(State()).(log := old(log) + [req])
        else
          r.Ok? && State() == old(State()).(buckets := old(buckets)[name := Bucket(location, None, [], {})], log := old(log) + [req])
    {
      var req := CreateBucket(name, location);
      log := log + [req];
      if req in faults {
        return Err(CallError(faults[req]));
      }
      if name in buckets {
        return Err(ApiError(Conflict));
      }
      buckets := buckets[name := Bucket(location, None, [], {})];
      return Ok(Unit);
    }

    /** bucket.patch() after setting default_kms_key_name. */
    method PatchBucketCall(name: string, kmsKey: string) returns (r: Result<Unit>)
      modifies this
      ensures var req := PatchBucket(name, kmsKey);
        if req in faults || name !in old(buckets) then
          r.Err? && State() == old(State()).(log := old(log) + [req])
        else
          r.Ok? && State() == old(State()).(
            buckets := old(buckets)[name := old(buckets)[name].(defaultKmsKey := Some(kmsKey))], log := old(log) + [req])
    {
      var req := PatchBucket(name, kmsKey);
      log := log + [req];
      if req in faults {
        return Err(CallError(faults[req]));
      }
      if name !in buckets {
        return Err(ApiError(NotFound));
      }
      buckets := buckets[name := buckets[name].(defaultKmsKey := Some(kmsKey))];
      return Ok(Unit);
    }

    method GetBucketPolicyCall(name: string) returns (r: Result<seq<Binding>>)
      modifies this
      ensures State() == old(State()).(log := old(log) + [GetBucketPolicy(name)])
      ensures r.Ok? <==> GetBucketPolicy(name) !in faults && name in buckets
      ensures r.Ok? ==> r.value == buckets[name].bindings
    {
      var req := GetBucketPolicy(name);
      log := log + [req];
      if req in faults {
        return Err(CallError(faults[req]));
      }
      if name !in buckets {
        return Err(ApiError(NotFound));
      }
      return Ok(buckets[name].bindings);
    }

    method SetBucketPolicyCall(name: string, bindings: seq<Binding>) returns (r: Result<Unit>)
      modifies this
      ensures var req := SetBucketPolicy(name, bindings);
        if req in faults || name !in old(buckets) then
          r.Err? && State() == old(State()).(log := old(log) + [req])
        else
          r.Ok? && State() == old(State()).(
            buckets := old(buckets)[name := old(buckets)[name].(bindings := bindings)], log := old(log) + [req])
    {
      var req := SetBucketPolicy(name, bindings);
      log := log + [req];
      if req in faults {
        return Err(CallError(faults[req]));
      }
      if name !in buckets {
        return Err(ApiError(NotFound));
      }
      buckets := buckets[name := buckets[name].(bindings := bindings)];
      return Ok(Unit);
    }

    /** blob.upload_from_filename; the answer is the blob's public URL. */
    method UploadObjectCall(bucket: string, objectName: string) returns (r: Result<string>)
      modifies this
      ensures var req := UploadObject(bucket, objectName);
        if req in faults || bucket !in old(buckets) then
          r.Err? && State() == old(State()).(log := old(log) + [req])
        else
          r == Ok(PublicUrl(bucket, objectName)) &&
          State() == old(State()).(
            buckets := old(buckets)[bucket := old(buckets)[bucket].(objects := old(buckets)[bucket].objects + {objectName})],
            log := old(log) + [req])
    {
      var req := UploadObject(bucket, objectName);
      log := log + [req];
      if req in faults {
        return Err(CallError(faults[req]));
      }
      if bucket !in buckets {
        return Err(ApiError(NotFound));
      }
      buckets := buckets[bucket := buckets[bucket].(objects := buckets[bucket].objects + {objectName})];
      return Ok(PublicUrl(bucket, objectName));
    }
  }

  function PublicUrl(bucket: string, objectName: string): string {
    "https://storage.googleapis.com/" + bucket + "/" + objectName
  }
}
