/**
 * The regional managed instance group of a cluster
 * (shared/lib/regional_managed_instance.py): creating it empty, adding the
 * seed node before the rest, scaling it, rolling a new template out one
 * instance at a time, reading and deleting it.
 */
module RegionalGroup {
  import opened Common
  import opened JsonValue
  import Text
  import SerialScan
  import opened Cloud
  import opened InstanceNaming

  /** A disk's `boot == False`: false, or the integer 0. */
  predicate BootIsFalse(d: AttachedDisk) {
    d.boot == JBool(false) || d.boot == JInt(0)
  }

  /** The stateful policy: every non-boot disk's device is kept when its instance goes. */
  function PreservedDisks(disks: seq<AttachedDisk>): (m: map<string, string>)
    ensures forall k :: 0 <= k < |disks| && BootIsFalse(disks[k]) ==> disks[k].deviceName in m
    ensures forall dev :: dev in m ==>
      (m[dev] == "never" && exists k :: 0 <= k < |disks| && BootIsFalse(disks[k]) && disks[k].deviceName == dev)
  {
    if disks == [] then map[]
    else
      var rest := PreservedDisks(disks[..|disks| - 1]);
      var d := disks[|disks| - 1];
      if BootIsFalse(d) then rest[d.deviceName := "never"] else rest
  }

  const CreatePolicy := UpdatePolicy(Some("OPPORTUNISTIC"), None, None, Some("RECREATE"), Some(0), Some("NONE"))

  /** The rolling-replacement policy a template change patches in. */
  const PatchPolicy := UpdatePolicy(Some("OPPORTUNISTIC"), Some("REPLACE"), Some("REPLACE"), Some("RECREATE"), Some(0), None)

  /** create_region_managed_instance_group_request. */
  function GroupRequestFor(name: string, template: Template, link: string, targetSize: int): (g: GroupRequest)
    ensures g.name == name && g.baseInstanceName == name && g.templateLink == link && g.targetSize == targetSize
    ensures g.targetShape == "BALANCED" && g.policy == CreatePolicy
    ensures g.preservedDisks == PreservedDisks(template.disks)
  {
    GroupRequest(name, name, link, targetSize, PreservedDisks(template.disks), "BALANCED", CreatePolicy)
  }

  /** A boot disk whose device name no other disk shares is never preserved. */
  lemma {:induction false} BootDiskNotPreserved(disks: seq<AttachedDisk>, b: nat)
    requires b < |disks| && !BootIsFalse(disks[b])
    requires forall k :: 0 <= k < |disks| && k != b ==> disks[k].deviceName != disks[b].deviceName
    ensures disks[b].deviceName !in PreservedDisks(disks)
  {
  }

  /** The URLs a create_instances request adds, in request order. */
  function Urls(project: string, zone: string, instances: seq<NewInstance>): seq<string> {
    NewUrls(project, zone, instances)
  }

  // ------------------------------------------------------------------ create

  /**
   * __create_region_managed_instance_group: insert the group with target
   * size 0, wait, then read it until it reports stable.
   */
  method CreateRegionGroup(p: Provider, name: string, template: Template) returns (r: Result<Group>)
    modifies p
    ensures var req := GroupRequestFor(name, template, TemplateLink(p.project, template.name), 0);
      r.Ok? <==> InsertGroup(req) !in p.faults && name !in old(p.groups) && GetGroup(name) !in p.faults
    ensures var req := GroupRequestFor(name, template, TemplateLink(p.project, template.name), 0);
      InsertGroup(req) in p.faults && p.faults[InsertGroup(req)].Failed? ==>
        r == Err(Internal(OperationFailed, p.faults[InsertGroup(req)].text))
    ensures r.Ok? ==> name in p.groups && r.value == p.groups[name] && r.value.settling == 0
    ensures r.Ok? ==>
      (r.value.members == [] && r.value.name == name &&
       r.value.templateLink == TemplateLink(p.project, template.name) &&
       r.value.preservedDisks == PreservedDisks(template.disks) && r.value.policy == CreatePolicy)
    ensures forall n :: n != name ==> (n in p.groups <==> n in old(p.groups))
    ensures forall n :: n != name && n in p.groups ==> p.groups[n] == old(p.groups)[n]
    ensures OnlyGroupsChanged(old(p.State()), p.State())
  {
    ghost var s0 := p.State();
    var req := GroupRequestFor(name, template, TemplateLink(p.project, template.name), 0);
    var f := p.InsertGroupCall(req);
    var waited := Wait(f);
    if waited.Err? {
      return Err(waited.error);
    }
    ghost var s1 := p.State();
    ghost var created := Group(name, req.templateLink, [], req.preservedDisks, "BALANCED", CreatePolicy, [], p.settleReads);
    r := PollUntilStable(p, name);
    InsertedThenChanged(s0, s1, p.State(), name, created);
  }

  /** __get_region_managed_instance_group: any error reads as "no such group". */
  method GetRegionGroup(p: Provider, name: string) returns (r: Option<Group>)
    modifies p
    ensures r.Some? <==> GetGroup(name) !in p.faults && name in old(p.groups)
    ensures r.Some? ==> r.value == old(p.groups)[name]
    ensures p.log == old(p.log) + [GetGroup(name)]
    ensures p.groups.Keys == old(p.groups).Keys
    ensures forall n :: n in p.groups ==> p.groups[n] == old(p.groups)[n].(settling := p.groups[n].settling)
    ensures OnlyGroupsChanged(old(p.State()), p.State())
  {
    var g, _ := p.GetGroupCall(name);
    if g.Err? {
      return None;
    }
    return Some(g.value);
  }

  // ------------------------------------------------------------------ update

  /** The version a patch installs: the template's link, named after the clock. */
  function VersionAt(link: string, now: nat): Version {
    Version(link, "0-" + Text.Decimal(now))
  }

  /**
   * __update_region_managed_instance_group: point the group at the new
   * template under the rolling-replacement policy, wait, and read it back.
   * `now` is `int(time.time())`.
   */
  method UpdateRegionGroup(p: Provider, name: string, template: Template, now: nat) returns (r: Result<Group>)
    modifies p
    ensures var req := PatchGroup(name, VersionAt(TemplateLink(p.project, template.name), now), PatchPolicy);
      r.Ok? <==> req !in p.faults && name in old(p.groups) && GetGroup(name) !in p.faults
    ensures r.Ok? ==>
      (name in p.groups && r.value.name == old(p.groups)[name].name &&
       r.value.templateLink == TemplateLink(p.project, template.name) &&
       r.value.versions == [VersionAt(TemplateLink(p.project, template.name), now)] &&
       r.value.policy == MergePolicy(old(p.groups)[name].policy, PatchPolicy) &&
       r.value.members == old(p.groups)[name].members)
    ensures r.Ok? ==> p.groups[name] == r.value.(settling := p.groups[name].settling)
    ensures |p.log| > |old(p.log)| &&
      p.log[|old(p.log)|] == PatchGroup(name, VersionAt(TemplateLink(p.project, template.name), now), PatchPolicy)
    ensures p.groups.Keys == old(p.groups).Keys
    ensures forall n :: n != name && n in p.groups ==> p.groups[n] == old(p.groups)[n]
    ensures OnlyGroupsChanged(old(p.State()), p.State())
  {
    ghost var s0 := p.State();
    var version := VersionAt(TemplateLink(p.project, template.name), now);
    var f := p.PatchGroupCall(name, version, PatchPolicy);
    var waited := Wait(f);
    if waited.Err? {
      return Err(waited.error);
    }
    ghost var s1 := p.State();
    OneGroupPut(s0, s1, name, s1.groups[name]);
    var g, _ := p.GetGroupCall(name);
    if g.Err? {
      OnlyGroupChangedFrame(s0, s1, name);
      return Err(g.error);
    }
    OneGroupPut(s1, p.State(), name, p.groups[name]);
    OnlyGroupChangedChain(s0, s1, p.State(), name);
    OnlyGroupChangedFrame(s0, p.State(), name);
    return Ok(g.value);
  }

  /** The patched policy replaces instances by recreating them, one at a time, with no surge. */
  lemma PatchedPolicy(base: UpdatePolicy)
    ensures var m := MergePolicy(base, PatchPolicy);
      m.kind == Some("OPPORTUNISTIC") && m.minimalAction == Some("REPLACE") &&
      m.mostDisruptiveAllowedAction == Some("REPLACE") && m.replacementMethod == Some("RECREATE") &&
      m.maxSurgeFixed == Some(0) && m.redistribution == base.redistribution
  {
  }

  // ---------------------------------------------------------------- adding

  /** The seed request: one instance, `<group>-000`, with no master hostname. */
  function SeedRequest(group: string): seq<NewInstance> {
    [NewInstance(InstanceName(group, 0), None)]
  }

  /**
   * __region_adding_instances: create the seed `<group>-000` and wait; then,
   * when more than one node is wanted, read the seed's hostname from the
   * first listed instance and create `<group>-001` .. `<group>-<size-1>`
   * in one request, each told that hostname.
   */
  method AddInstances(p: Provider, g: Group, size: int) returns (r: Result<Unit>)
    modifies p
    ensures var seed := CreateInstances(g.name, SeedRequest(g.name));
      r.Ok? <==>
        (seed !in p.faults && g.name in old(p.groups) &&
         (size > 1 ==>
           var first := (old(p.groups)[g.name].members + Urls(p.project, p.zone, SeedRequest(g.name)))[0];
           ListInstances(g.name) !in p.faults && MasterHostname(first, p.project).Ok? &&
           CreateInstances(g.name, Batch(g.name, 1, size, Some(MasterHostname(first, p.project).value))) !in p.faults))
    ensures r.Ok? && size <= 1 ==>
      p.log == old(p.log) + [CreateInstances(g.name, SeedRequest(g.name))] &&
      p.groups == old(p.groups)[g.name := old(p.groups)[g.name].(
        members := old(p.groups)[g.name].members + Urls(p.project, p.zone, SeedRequest(g.name)))]
    ensures r.Ok? && size > 1 ==>
      var first := (old(p.groups)[g.name].members + Urls(p.project, p.zone, SeedRequest(g.name)))[0];
      var batch := Batch(g.name, 1, size, Some(MasterHostname(first, p.project).value));
      p.log == old(p.log) + [CreateInstances(g.name, SeedRequest(g.name)), ListInstances(g.name), CreateInstances(g.name, batch)] &&
      p.groups == old(p.groups)[g.name := old(p.groups)[g.name].(
        members := old(p.groups)[g.name].members + Urls(p.project, p.zone, SeedRequest(g.name)) + Urls(p.project, p.zone, batch))]
    ensures |p.log| > |old(p.log)| && p.log[|old(p.log)|] == CreateInstances(g.name, SeedRequest(g.name))
    ensures p.groups.Keys == old(p.groups).Keys
    ensures forall n :: n != g.name && n in p.groups ==> p.groups[n] == old(p.groups)[n]
    ensures OnlyGroupsChanged(old(p.State()), p.State())
  {
    ghost var s0 := p.State();
    var f := p.CreateInstancesCall(g.name, SeedRequest(g.name));
    var waited := Wait(f);
    if waited.Err? {
      OnlyGroupChangedFrame(s0, p.State(), g.name);
      return Err(waited.error);
    }
    if size > 1 {
      ghost var s1 := p.State();
      ghost var seeded := s0.groups[g.name].members + Urls(p.project, p.zone, SeedRequest(g.name));
      assert s1.groups == s0.groups[g.name := s0.groups[g.name].(members := seeded)];
      r := Grow(p, g, 1, size);
      OnlyGroupChangedChain(s0, s1, p.State(), g.name);
      OnlyGroupChangedFrame(s0, p.State(), g.name);
      if r.Ok? {
        var master := MasterHostname(seeded[0], p.project).value;
        var batch := Batch(g.name, 1, size, Some(master));
        LogThenPair(s0.log, s1.log, p.log, CreateInstances(g.name, SeedRequest(g.name)), ListInstances(g.name), CreateInstances(g.name, batch));
        MembersGrown(s0.groups, s1.groups, p.groups, g.name, Urls(p.project, p.zone, SeedRequest(g.name)), Urls(p.project, p.zone, batch));
      }
      return;
    }
    OnlyGroupChangedFrame(s0, p.State(), g.name);
    return Ok(Unit);
  }

  /**
   * Adding instances to a group created empty: the members become exactly
   * `<group>-000` .. `<group>-<size-1>` (just the seed when size <= 1), and
   * every node after the seed is told the seed's own hostname.
   */
  lemma AddedToEmptyGroup(project: Segment, zone: Segment, group: string, size: int)
    requires NoSlash(group)
    ensures var seedUrl := Urls(project, zone, SeedRequest(group))[0];
      MasterHostname(seedUrl, project) == Ok(InstanceName(group, 0) + "." + zone + ".c." + project + ".internal")
    ensures var all := Urls(project, zone, SeedRequest(group)) +
        Urls(project, zone, Batch(group, 1, size, Some(InstanceName(group, 0) + "." + zone + ".c." + project + ".internal")));
      |all| == (if size > 1 then size else 1) &&
      forall k :: 0 <= k < |all| ==> all[k] == InstanceUrl(project, zone, InstanceName(group, k))
  {
    InstanceNameNoSlash(group, 0);
    HostnameOfInstanceUrl(project, zone, InstanceName(group, 0));
  }

  /** What adding leaves in a group that was empty: exactly the names the lemma above lists. */
  lemma FilledEmptyGroup(project: Segment, zone: Segment, group: string, size: int, members: seq<string>)
    requires NoSlash(group)
    requires var seeded := [] + Urls(project, zone, SeedRequest(group));
      if size > 1 then
        MasterHostname(seeded[0], project).Ok? &&
        members == seeded + Urls(project, zone, Batch(group, 1, size, Some(MasterHostname(seeded[0], project).value)))
      else members == seeded
    ensures |members| == (if size > 1 then size else 1)
    ensures forall k :: 0 <= k < |members| ==> members[k] == InstanceUrl(project, zone, InstanceName(group, k))
  {
    AddedToEmptyGroup(project, zone, group, size);
    var seed := Urls(project, zone, SeedRequest(group));
    assert [] + seed == seed;
  }

  /**
   * Create the group empty, then add `size` instances: the two calls both
   * the cluster creation and the group API make in a row. A group created
   * this way holds exactly `<name>-000` .. `<name>-<size-1>`.
   */
  method CreateAndFill(p: Provider, name: string, template: Template, size: int) returns (r: Result<Group>)
    modifies p
    ensures OnlyGroupsChanged(old(p.State()), p.State())
    ensures r.Ok? ==>
      name !in old(p.groups) && name in p.groups && r.value.name == name && r.value.members == [] &&
      r.value.templateLink == TemplateLink(p.project, template.name)
    ensures r.Ok? && NoSlash(name) ==>
      var members := p.groups[name].members;
      |members| == (if size > 1 then size else 1) &&
      forall k :: 0 <= k < |members| ==> members[k] == InstanceUrl(p.project, p.zone, InstanceName(name, k))
  {
    ghost var s0 := p.State();
    r := CreateRegionGroup(p, name, template);
    if r.Err? {
      return;
    }
    ghost var s1 := p.State();
    var added := AddInstances(p, r.value, size);
    OnlyGroupsChangedChain(s0, s1, p.State());
    if added.Err? {
      return Err(added.error);
    }
    if NoSlash(name) {
      FilledEmptyGroup(p.project, p.zone, name, size, p.groups[name].members);
    }
  }

  // --------------------------------------------------------------- scaling

  /**
   * The growth step adding and scaling both spell out: list the group, read
   * the seed's hostname from the first listed instance (an empty listing
   * fails on the index), then create `<group>-<from>` .. `<group>-<to-1>`,
   * each told that hostname, and wait.
   */
  method Grow(p: Provider, g: Group, from: nat, to: int) returns (r: Result<Unit>)
    modifies p
    ensures r.Ok? <==>
      (ListInstances(g.name) !in p.faults && g.name in old(p.groups) &&
       |old(p.groups)[g.name].members| > 0 && MasterHostname(old(p.groups)[g.name].members[0], p.project).Ok? &&
       CreateInstances(g.name, Batch(g.name, from, to, Some(MasterHostname(old(p.groups)[g.name].members[0], p.project).value))) !in p.faults)
    ensures r.Ok? ==>
      var batch := Batch(g.name, from, to, Some(MasterHostname(old(p.groups)[g.name].members[0], p.project).value));
      p.log == old(p.log) + [ListInstances(g.name), CreateInstances(g.name, batch)] &&
      p.groups == old(p.groups)[g.name := old(p.groups)[g.name].(members := old(p.groups)[g.name].members + Urls(p.project, p.zone, batch))]
    ensures OnlyGroupChanged(old(p.State()), p.State(), g.name)
  {
    ghost var s0 := p.State();
    var nodes := p.ListInstancesCall(g.name);
    if nodes.Err? {
      return Err(nodes.error);
    }
    if |nodes.value| == 0 {
      return Err(IndexError("list index out of range"));
    }
    var master := MasterHostname(nodes.value[0], p.project);
    if master.Err? {
      return Err(master.error);
    }
    ghost var s1 := p.State();
    var f := p.CreateInstancesCall(g.name, Batch(g.name, from, to, Some(master.value)));
    OnlyGroupChangedChain(s0, s1, p.State(), g.name);
    var waited := Wait(f);
    if waited.Err? {
      return Err(waited.error);
    }
    return Ok(Unit);
  }

  const SerialOutputHead := "Error getting serial port output from instance "
  const ScaleDownArity := "list_region_instances() takes 3 positional arguments but 4 were given"

  /**
   * __region_scaling_mig from `size` to `wanted`. Growing reads the seed's
   * hostname from the first listed instance and creates
   * `<group>-<size>` .. `<group>-<wanted-1>` with it. Shrinking calls the
   * public listing function with the client as an extra argument, which
   * raises before anything is deleted. Equal sizes do nothing.
   */
  method ScaleGroup(p: Provider, g: Group, size: nat, wanted: int) returns (r: Result<Unit>)
    modifies p
    ensures size == wanted ==> r == Ok(Unit) && p.State() == old(p.State())
    ensures size > wanted ==> r == Err(TypeError(ScaleDownArity)) && p.State() == old(p.State())
    ensures size < wanted ==>
      (r.Ok? <==>
        (ListInstances(g.name) !in p.faults && g.name in old(p.groups) &&
         |old(p.groups)[g.name].members| > 0 && MasterHostname(old(p.groups)[g.name].members[0], p.project).Ok? &&
         CreateInstances(g.name, Batch(g.name, size, wanted, Some(MasterHostname(old(p.groups)[g.name].members[0], p.project).value))) !in p.faults))
    ensures size < wanted && r.Ok? ==>
      var batch := Batch(g.name, size, wanted, Some(MasterHostname(old(p.groups)[g.name].members[0], p.project).value));
      p.log == old(p.log) + [ListInstances(g.name), CreateInstances(g.name, batch)] &&
      p.groups == old(p.groups)[g.name := old(p.groups)[g.name].(members := old(p.groups)[g.name].members + Urls(p.project, p.zone, batch))]
    ensures p.groups.Keys == old(p.groups).Keys
    ensures forall n :: n != g.name && n in p.groups ==> p.groups[n] == old(p.groups)[n]
    ensures OnlyGroupsChanged(old(p.State()), p.State())
  {
    ghost var s0 := p.State();
    if size < wanted {
      r := Grow(p, g, size, wanted);
      OnlyGroupChangedFrame(s0, p.State(), g.name);
    } else if size > wanted {
      r := Err(TypeError(ScaleDownArity));
    } else {
      r := Ok(Unit);
    }
  }

  /**
   * Growing a group whose members are exactly `<group>-000` ..
   * `<group>-<size-1>` yields exactly `<group>-000` .. `<group>-<wanted-1>`,
   * the new ones told the seed's hostname.
   */
  lemma ScaledUpNames(project: Segment, zone: Segment, group: string, size: nat, wanted: int)
    requires NoSlash(group) && size < wanted
    ensures var before := seq(size, k requires 0 <= k => InstanceUrl(project, zone, InstanceName(group, k)));
      var host := InstanceName(group, 0) + "." + zone + ".c." + project + ".internal";
      var after := before + Urls(project, zone, Batch(group, size, wanted, Some(host)));
      |after| == wanted && forall k :: 0 <= k < |after| ==> after[k] == InstanceUrl(project, zone, InstanceName(group, k))
    ensures size > 0 ==>
      MasterHostname(InstanceUrl(project, zone, InstanceName(group, 0)), project) ==
      Ok(InstanceName(group, 0) + "." + zone + ".c." + project + ".internal")
  {
    var before := seq(size, k requires 0 <= k => InstanceUrl(project, zone, InstanceName(group, k)));
    var host := InstanceName(group, 0) + "." + zone + ".c." + project + ".internal";
    var added := Urls(project, zone, Batch(group, size, wanted, Some(host)));
    BatchUrls(project, zone, group, size, wanted, Some(host));
    var after := before + added;
    forall k | 0 <= k < |after|
      ensures after[k] == InstanceUrl(project, zone, InstanceName(group, k))
    {
      if k >= size {
        assert after[k] == added[k - size];
      }
    }
    InstanceNameNoSlash(group, 0);
    HostnameOfInstanceUrl(project, zone, InstanceName(group, 0));
  }

  /** The URLs of a batch name the batch's indices in order. */
  lemma BatchUrls(project: string, zone: string, group: string, from: nat, to: int, master: Option<string>)
    ensures var added := Urls(project, zone, Batch(group, from, to, master));
      |added| == (if to > from then to - from else 0) &&
      forall k :: 0 <= k < |added| ==> added[k] == InstanceUrl(project, zone, InstanceName(group, from + k))
  {
  }

  // --------------------------------------------------------- rolling update

  /** The instances named by the apply-updates requests among `reqs`, in order. */
  function Applied(reqs: seq<Request>): seq<string> {
    if reqs == [] then []
    else
      var last := reqs[|reqs| - 1];
      Applied(reqs[..|reqs| - 1]) + (if last.ApplyUpdates? then last.urls else [])
  }

  lemma {:induction false} AppliedAppend(reqs: seq<Request>, more: seq<Request>)
    ensures Applied(reqs + more) == Applied(reqs) + Applied(more)
    decreases |more|
  {
    if more != [] {
      assert (reqs + more)[..|reqs + more| - 1] == reqs + more[..|more| - 1];
      AppliedAppend(reqs, more[..|more| - 1]);
    } else {
      assert reqs + more == reqs;
    }
  }

  /** What was applied since `l0` is what was applied up to `l1` and then since. */
  lemma AppliedSince(l0: seq<Request>, l1: seq<Request>, l2: seq<Request>)
    requires l0 <= l1 <= l2
    ensures Applied(l2[|l0|..]) == Applied(l1[|l0|..]) + Applied(l2[|l1|..])
  {
    assert l2[|l0|..] == l1[|l0|..] + l2[|l1|..];
    AppliedAppend(l1[|l0|..], l2[|l1|..]);
  }

  /** How a rolling update went: the instances it updated and each one's startup verdict. */
  datatype Rollout = Rollout(updated: seq<string>, verdicts: seq<SerialScan.Verdict>)

  /**
   * A rolling update over `members` went in order, moved to the next
   * instance only after the previous one's startup script succeeded, and
   * stopped short only at a failure.
   */
  predicate InOrderUntilFailure(members: seq<string>, o: Rollout) {
    |o.updated| == |o.verdicts| && o.updated <= members &&
    (forall k :: 0 <= k < |o.verdicts| ==> o.verdicts[k] != SerialScan.NoStatusYet) &&
    (forall k :: 0 <= k < |o.verdicts| - 1 ==> o.verdicts[k] == SerialScan.ScriptSucceeded) &&
    (|o.updated| < |members| ==> o.verdicts != [] && o.verdicts[|o.verdicts| - 1] == SerialScan.ScriptFailed)
  }

  /** Every instance succeeded: the update covered them all. */
  lemma CompletedRollout(members: seq<string>, verdicts: seq<SerialScan.Verdict>)
    requires |verdicts| == |members|
    requires forall k :: 0 <= k < |verdicts| ==> verdicts[k] == SerialScan.ScriptSucceeded
    ensures InOrderUntilFailure(members, Rollout(members, verdicts))
  {
  }

  /** The instances before `i` succeeded and instance `i` failed: the update stops after it. */
  lemma StoppedRollout(members: seq<string>, verdicts: seq<SerialScan.Verdict>, i: nat)
    requires i < |members| && |verdicts| == i
    requires forall k :: 0 <= k < i ==> verdicts[k] == SerialScan.ScriptSucceeded
    ensures InOrderUntilFailure(members, Rollout(members[..i + 1], verdicts + [SerialScan.ScriptFailed]))
  {
  }

  /** instances.py's get_instance_serial_output: any failure is re-raised as its own exception. */
  method SerialOutput(p: Provider, zone: string, instance: string) returns (r: Result<string>)
    modifies p
    ensures r.Err? ==> r.error.Internal? && r.error.kind == InstanceSerialOutput
    ensures var req := Cloud.SerialOutput(zone, instance);
      if req in p.faults || instance !in old(p.console) || old(p.console)[instance] == [] then
        r.Err? && p.State() == old(p.State()).(log := old(p.log) + [req])
      else
        r == Ok(old(p.console)[instance][0]) &&
        p.State() == old(p.State()).(console := old(p.console)[instance := old(p.console)[instance][1..]], log := old(p.log) + [req])
  {
    var out := p.SerialOutputCall(zone, instance);
    if out.Err? {
      return Err(Internal(InstanceSerialOutput,
        SerialOutputHead + instance + ": " + out.error.text));
    }
    return Ok(out.value);
  }

  /**
   * Reading `entries` one at a time, the `n`-th read was the first whose
   * output reports an exit status, and `v` is that output's verdict.
   */
  predicate PolledUntilReport(entries: seq<string>, n: nat, v: SerialScan.Verdict) {
    1 <= n <= |entries| &&
    (forall k :: 0 <= k < n - 1 ==> SerialScan.Judge(entries[k]) == SerialScan.NoStatusYet) &&
    v == SerialScan.Judge(entries[n - 1]) && v != SerialScan.NoStatusYet
  }

  /**
   * One instance's turn as its console saw it: the instance named by `url`
   * had `n` outputs read from `c0`, leaving `c1`, and `v` is their verdict.
   */
  predicate ConsoleTurn(c0: map<string, seq<string>>, url: string, n: nat, v: SerialScan.Verdict, c1: map<string, seq<string>>) {
    NameAndZone(url).Ok? &&
    var name := NameAndZone(url).value.0;
    name in c0 && PolledUntilReport(c0[name], n, v) && c1 == c0[name := c0[name][n..]]
  }

  /** The consoles between the turns of a rolling update, and the reads each turn made. */
  datatype Trace = Trace(consoles: seq<map<string, seq<string>>>, polls: seq<nat>)

  /**
   * Every instance the update reached was judged by its own console, from
   * `c0` before the first turn to `c1` after the last.
   */
  predicate JudgedByConsoles(c0: map<string, seq<string>>, c1: map<string, seq<string>>, o: Rollout, t: Trace) {
    |o.verdicts| == |o.updated| && |t.polls| == |o.updated| && |t.consoles| == |o.updated| + 1 &&
    t.consoles[0] == c0 && t.consoles[|o.updated|] == c1 &&
    forall k :: 0 <= k < |o.updated| ==> ConsoleTurn(t.consoles[k], o.updated[k], t.polls[k], o.verdicts[k], t.consoles[k + 1])
  }

  /**
   * One more console read keeps to the frame of a poll, and a read that
   * answers hands back the next output of the instance's console.
   */
  lemma ConsoleRead(s0: CloudState, s1: CloudState, s2: CloudState, instance: string, entries: seq<string>,
                    polled: nat, zone: string, out: Result<string>)
    requires OnlyConsoleRead(s0, s1) && Applied(s1.log[|s0.log|..]) == [] && polled <= |entries|
    requires entries == if instance in s0.console then s0.console[instance] else []
    requires s1.console == if instance in s0.console then s0.console[instance := entries[polled..]] else s0.console
    requires out.Err? ==> s2 == s1.(log := s1.log + [Cloud.SerialOutput(zone, instance)])
    requires out.Ok? ==>
      instance in s1.console && s1.console[instance] != [] && out.value == s1.console[instance][0] &&
      s2 == s1.(console := s1.console[instance := s1.console[instance][1..]], log := s1.log + [Cloud.SerialOutput(zone, instance)])
    ensures OnlyConsoleRead(s0, s2) && Applied(s2.log[|s0.log|..]) == []
    ensures out.Ok? ==>
      instance in s0.console && polled < |entries| && out.value == entries[polled] &&
      s2.console == s0.console[instance := entries[polled + 1..]]
  {
    assert s2.log[|s1.log|..] == [Cloud.SerialOutput(zone, instance)];
    AppliedSince(s0.log, s1.log, s2.log);
    if out.Ok? {
      assert entries[polled..][1..] == entries[polled + 1..];
    }
  }

  /**
   * Poll one instance's serial console until its output reports an exit
   * status; the verdict is the last status that output reports.
   */
  method AwaitStartup(p: Provider, zone: string, instance: string) returns (r: Result<SerialScan.Verdict>, ghost polled: nat)
    modifies p
    ensures r.Ok? ==>
      instance in old(p.console) && PolledUntilReport(old(p.console)[instance], polled, r.value) &&
      p.console == old(p.console)[instance := old(p.console)[instance][polled..]]
    ensures r.Err? ==> r.error.Internal? && r.error.kind == InstanceSerialOutput
    ensures OnlyConsoleRead(old(p.State()), p.State())
    ensures Applied(p.log[|old(p.log)|..]) == []
  {
    ghost var s0 := p.State();
    ghost var entries := if instance in p.console then p.console[instance] else [];
    var verdict := SerialScan.NoStatusYet;
    polled := 0;
    while verdict == SerialScan.NoStatusYet
      invariant OnlyConsoleRead(s0, p.State()) && Applied(p.log[|s0.log|..]) == []
      invariant polled <= |entries|
      invariant p.console == if instance in s0.console then s0.console[instance := entries[polled..]] else s0.console
      invariant forall k :: 0 <= k < polled - 1 ==> SerialScan.Judge(entries[k]) == SerialScan.NoStatusYet
      invariant verdict == if polled == 0 then SerialScan.NoStatusYet else SerialScan.Judge(entries[polled - 1])
      decreases |entries| - polled
    {
      ghost var before := p.State();
      var out := SerialOutput(p, zone, instance);
      ConsoleRead(s0, before, p.State(), instance, entries, polled, zone, out);
      if out.Err? {
        return Err(out.error), polled;
      }
      verdict := SerialScan.Judge(out.value);
      polled := polled + 1;
    }
    Reported(s0.console, p.console, instance, entries, polled, verdict);
    return Ok(verdict), polled;
  }

  /** A poll that stopped on a report read the instance's console up to that report. */
  lemma Reported(c0: map<string, seq<string>>, c: map<string, seq<string>>, instance: string, entries: seq<string>,
                 polled: nat, verdict: SerialScan.Verdict)
    requires entries == if instance in c0 then c0[instance] else []
    requires polled <= |entries| && c == if instance in c0 then c0[instance := entries[polled..]] else c0
    requires forall k :: 0 <= k < polled - 1 ==> SerialScan.Judge(entries[k]) == SerialScan.NoStatusYet
    requires verdict == if polled == 0 then SerialScan.NoStatusYet else SerialScan.Judge(entries[polled - 1])
    requires verdict != SerialScan.NoStatusYet
    ensures instance in c0 && PolledUntilReport(c0[instance], polled, verdict) && c == c0[instance := c0[instance][polled..]]
  {
  }

  /**
   * One step of the rolling update: apply the group's template to one
   * instance, wait, then await its startup script's verdict.
   */
  method UpdateInstance(p: Provider, group: string, url: string) returns (r: Result<SerialScan.Verdict>, ghost polled: nat)
    modifies p
    ensures r.Ok? ==> ConsoleTurn(old(p.console), url, polled, r.value, p.console)
    ensures OnlyConsoleRead(old(p.State()), p.State()) && p.groups == old(p.groups)
    ensures |p.log| > |old(p.log)| && p.log[|old(p.log)|] == ApplyUpdates(group, [url])
    ensures Applied(p.log[|old(p.log)|..]) == [url]
  {
    polled := 0;
    var f := p.ApplyUpdatesCall(group, [url]);
    assert p.log[|old(p.log)|..] == [ApplyUpdates(group, [url])];
    assert Applied([ApplyUpdates(group, [url])]) == [url];
    var waited := Wait(f);
    if waited.Err? {
      return Err(waited.error), polled;
    }
    var nz := NameAndZone(url);
    if nz.Err? {
      return Err(nz.error), polled;
    }
    ghost var mid := p.log;
    r, polled := AwaitStartup(p, nz.value.1, nz.value.0);
    AppliedSince(old(p.log), mid, p.log);
  }

  /**
   * __apply_updates_to_instances: list the group's instances and, one at a
   * time and in listing order, apply the new template to the instance,
   * wait, and poll its console until the startup script reports; a
   * non-zero report stops the update there.
   */
  method ApplyUpdatesToInstances(p: Provider, g: Group) returns (r: Result<Rollout>, ghost trace: Trace)
    modifies p
    ensures r.Ok? ==> ListInstances(g.name) !in p.faults && g.name in old(p.groups)
    ensures r.Ok? ==> InOrderUntilFailure(old(p.groups)[g.name].members, r.value)
    ensures r.Ok? ==> JudgedByConsoles(old(p.console), p.console, r.value, trace)
    ensures OnlyConsoleRead(old(p.State()), p.State())
    ensures r.Ok? ==> Applied(p.log[|old(p.log)|..]) == r.value.updated
    ensures |p.log| > |old(p.log)| && p.log[|old(p.log)|] == ListInstances(g.name)
  {
    ghost var s0 := p.State();
    trace := Trace([], []);
    var listed := p.ListInstancesCall(g.name);
    ghost var s1 := p.State();
    if listed.Err? {
      LogHead(s0.log, s1.log, p.log, ListInstances(g.name));
      return Err(listed.error), trace;
    }
    NothingAppliedYet(s0.log, s1.log, ListInstances(g.name));
    r, trace := RollOut(p, g.name, listed.value);
    OnlyConsoleReadChain(s0, s1, p.State());
    AppliedSince(s0.log, s1.log, p.log);
    LogHead(s0.log, s1.log, p.log, ListInstances(g.name));
  }

  /** The loop of __apply_updates_to_instances over the listed members. */
  method RollOut(p: Provider, group: string, members: seq<string>) returns (r: Result<Rollout>, ghost trace: Trace)
    modifies p
    ensures r.Ok? ==> InOrderUntilFailure(members, r.value)
    ensures r.Ok? ==> JudgedByConsoles(old(p.console), p.console, r.value, trace)
    ensures OnlyConsoleRead(old(p.State()), p.State())
    ensures r.Ok? ==> Applied(p.log[|old(p.log)|..]) == r.value.updated
  {
    ghost var s0 := p.State();
    var verdicts: seq<SerialScan.Verdict> := [];
    trace := Trace([p.console], []);
    var i := 0;
    assert p.log[|s0.log|..] == [];
    while i < |members|
      invariant 0 <= i <= |members| && |verdicts| == i
      invariant forall k :: 0 <= k < i ==> verdicts[k] == SerialScan.ScriptSucceeded
      invariant JudgedByConsoles(s0.console, p.console, Rollout(members[..i], verdicts), trace)
      invariant OnlyConsoleRead(s0, p.State())
      invariant Applied(p.log[|s0.log|..]) == members[..i]
    {
      ghost var before := p.State();
      var verdict, n := UpdateInstance(p, group, members[i]);
      OnlyConsoleReadChain(s0, before, p.State());
      RolloutStep(s0.log, before.log, p.log, members, i);
      if verdict.Err? {
        return Err(verdict.error), trace;
      }
      TraceExtended(s0.console, before.console, members, verdicts, trace, i, p.console, n, verdict.value);
      trace := Trace(trace.consoles + [p.console], trace.polls + [n]);
      if verdict.value == SerialScan.ScriptFailed {
        StoppedRollout(members, verdicts, i);
        return Ok(Rollout(members[..i + 1], verdicts + [SerialScan.ScriptFailed])), trace;
      }
      verdicts := verdicts + [verdict.value];
      i := i + 1;
    }
    assert members[..i] == members;
    CompletedRollout(members, verdicts);
    r := Ok(Rollout(members, verdicts));
  }

  /** Judging one more instance by its console extends the trace by that turn. */
  lemma TraceExtended(c0: map<string, seq<string>>, c1: map<string, seq<string>>, members: seq<string>, verdicts: seq<SerialScan.Verdict>, t: Trace,
                      i: nat, c: map<string, seq<string>>, n: nat, v: SerialScan.Verdict)
    requires i < |members| && JudgedByConsoles(c0, c1, Rollout(members[..i], verdicts), t)
    requires ConsoleTurn(c1, members[i], n, v, c)
    ensures JudgedByConsoles(c0, c, Rollout(members[..i + 1], verdicts + [v]), Trace(t.consoles + [c], t.polls + [n]))
  {
    var o := Rollout(members[..i + 1], verdicts + [v]);
    var t' := Trace(t.consoles + [c], t.polls + [n]);
    forall k | 0 <= k < i + 1
      ensures ConsoleTurn(t'.consoles[k], o.updated[k], t'.polls[k], o.verdicts[k], t'.consoles[k + 1])
    {
      if k < i {
        assert members[..i][k] == members[k];
      }
    }
  }

  /** A step that logged one entry other than an update applied nothing. */
  lemma NothingAppliedYet(l0: seq<Request>, l1: seq<Request>, x: Request)
    requires l1 == l0 + [x] && !x.ApplyUpdates?
    ensures Applied(l1[|l0|..]) == []
  {
    assert l1[|l0|..] == [x];
    assert Applied([x]) == Applied([]) + [];
  }

  /** Updating instance `i` after the first `i` extends what was applied by that one instance. */
  lemma RolloutStep(l0: seq<Request>, l1: seq<Request>, l2: seq<Request>, members: seq<string>, i: nat)
    requires l0 <= l1 <= l2 && i < |members|
    requires Applied(l1[|l0|..]) == members[..i] && Applied(l2[|l1|..]) == [members[i]]
    ensures Applied(l2[|l0|..]) == members[..i + 1]
  {
    AppliedSince(l0, l1, l2);
    assert members[..i] + [members[i]] == members[..i + 1];
  }

  // ---------------------------------------------------------------- delete

  /** __delete_region_managed_instance_group: delete and wait. */
  method DeleteRegionGroup(p: Provider, name: string) returns (r: Result<Unit>)
    modifies p
    ensures r.Ok? <==> DeleteGroup(name) !in p.faults && name in old(p.groups)
    ensures r.Ok? ==> p.groups == old(p.groups) - {name}
    ensures r.Err? ==> p.groups == old(p.groups)
    ensures p.log == old(p.log) + [DeleteGroup(name)]
    ensures OnlyGroupsChanged(old(p.State()), p.State())
  {
    var f := p.DeleteGroupCall(name);
    var waited := Wait(f);
    if waited.Err? {
      return Err(waited.error);
    }
    return Ok(Unit);
  }
}
