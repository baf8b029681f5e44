/**
 * The command-line cluster creation (core/create_cluster.py): the
 * provisioning steps, then the template, the group and the firewall rule.
 * The template step calls the library's create and update helpers with one
 * argument too few, so every run that reaches it fails there: creation
 * never completes and never changes a template, a group or a rule.
 */
module CreateCluster {
  import opened Common
  import opened Cloud
  import opened InstanceNaming
  import Entities
  import Provisioning
  import Secrets
  import RegionalGroup
  import TemplateLib

  const CreateArity := "create_template() missing 1 required positional argument: 'tags'"
  const UpdateArity := "update_template() missing 1 required positional argument: 'tags'"

  /** The template lookup finds the template. */
  predicate TemplateFound(p: Provider, name: string)
    reads p
  {
    GetTemplate(name) !in p.faults && name in p.templates
  }

  /**
   * setup_instance_template: read the image and the template, then create
   * the template when it is missing or update it when it exists. Both calls
   * lack the labels argument, so the step fails with nothing but the log
   * changed.
   */
  method SetupInstanceTemplate(p: Provider, t: Entities.TemplateSpec) returns (r: Result<Template>)
    modifies p
    ensures r.Err?
    ensures p.State() == old(p.State()).(log := p.log)
    ensures var image := GetImage(t.imageProject, t.imageFamily);
      var imageFound := image !in p.faults && (t.imageProject, t.imageFamily) in p.images;
      (!imageFound ==> p.log == old(p.log) + [image] && r.error.Internal? && r.error.kind == ImageNotFound) &&
      (imageFound ==> (p.log == old(p.log) + [image, GetTemplate(t.name)] &&
        r.error == TypeError(if TemplateFound(p, t.name) then UpdateArity else CreateArity)))
  {
    ghost var l0 := p.log;
    var image := TemplateLib.GetImageFromFamily(p, t.imageProject, t.imageFamily);
    if image.Err? {
      return Err(image.error);
    }
    ghost var l1 := p.log;
    var template := TemplateLib.GetInstanceTemplate(p, t.name);
    LogPair(l0, l1, p.log, GetImage(t.imageProject, t.imageFamily), GetTemplate(t.name));
    if template.None? {
      return Err(TypeError(CreateArity));
    }
    return Err(TypeError(UpdateArity));
  }

  /** The group lookup finds the group. */
  predicate GroupFound(p: Provider, name: string)
    reads p
  {
    GetGroup(name) !in p.faults && name in p.groups
  }

  /**
   * setup_managed_instance_group: a missing group is created empty and
   * filled with the cluster's instances; an existing group is not an error
   * and is scaled from its member count to the cluster's size, which fails
   * when that would shrink it.
   */
  method SetupManagedInstanceGroup(p: Provider, c: Entities.ClusterSpec, template: Template) returns (r: Result<Group>)
    modifies p
    ensures OnlyGroupsChanged(old(p.State()), p.State())
    ensures |p.log| > |old(p.log)| && p.log[|old(p.log)|] == GetGroup(c.name)
    ensures !old(GroupFound(p, c.name)) && r.Ok? ==>
      c.name !in old(p.groups) && c.name in p.groups && r.value.name == c.name && r.value.members == [] &&
      r.value.templateLink == TemplateLink(p.project, template.name)
    ensures !old(GroupFound(p, c.name)) && r.Ok? && NoSlash(c.name) ==>
      var members := p.groups[c.name].members;
      |members| == (if c.size > 1 then c.size else 1) &&
      forall k :: 0 <= k < |members| ==> members[k] == InstanceUrl(p.project, p.zone, InstanceName(c.name, k))
    ensures old(GroupFound(p, c.name)) ==>
      p.groups.Keys == old(p.groups).Keys &&
      (c.size < |old(p.groups)[c.name].members| ==> r == Err(TypeError(RegionalGroup.ScaleDownArity))) &&
      (r.Ok? ==> |old(p.groups)[c.name].members| <= c.size && r.value.members == old(p.groups)[c.name].members)
  {
    ghost var s0 := p.State();
    var mig := RegionalGroup.GetRegionGroup(p, c.name);
    ghost var s1 := p.State();
    if mig.None? {
      r := RegionalGroup.CreateAndFill(p, c.name, template, c.size);
    } else {
      var scaled := RegionalGroup.ScaleGroup(p, mig.value, mig.value.TargetSize(), c.size);
      r := if scaled.Err? then Err(scaled.error) else Ok(mig.value);
    }
    OnlyGroupsChangedChain(s0, s1, p.State());
    LogHead(s0.log, s1.log, p.log, GetGroup(c.name));
  }

  /** Nothing creation may not touch has changed: templates, groups, rules, disks, consoles. */
  predicate CreateFrame(s0: CloudState, s1: CloudState) {
    s1 == s0.(secrets := s1.secrets, keyRings := s1.keyRings, keys := s1.keys, policies := s1.policies,
              buckets := s1.buckets, log := s1.log) &&
    s0.log <= s1.log
  }

  lemma TemplateStep(s0: CloudState, s1: CloudState, s2: CloudState)
    requires CreateFrame(s0, s1) && s2 == s1.(log := s2.log) && s1.log <= s2.log
    ensures CreateFrame(s0, s2) && s2.secrets == s1.secrets && s2.keys == s1.keys && s2.buckets == s1.buckets
  {
  }

  /**
   * create_cluster: provisioning, then the template step, which always
   * fails. Each step runs only once the one before it succeeded; the group
   * and firewall steps are never reached.
   */
  method CreateCluster(p: Provider, c: Entities.ClusterSpec, suffix: string,
                       storageAccount: Option<string>, computeAccount: Option<string>)
    returns (r: Result<Unit>, ghost step: Provisioning.Step)
    modifies p
    ensures r.Err?
    ensures Provisioning.Reached(old(p.State()), p.State(), p.project, c, suffix, step) && step != Provisioning.AtLookup
    ensures step == Provisioning.AtTemplate ==>
      r.error == TypeError(CreateArity) || r.error == TypeError(UpdateArity) ||
      (r.error.Internal? && r.error.kind == ImageNotFound)
    ensures CreateFrame(old(p.State()), p.State())
    ensures p.keys != old(p.keys) ==> Provisioning.ClusterSecret(p.project, c) in p.secrets
    ensures p.buckets != old(p.buckets) ==> Provisioning.ClusterKey(p.project, c, suffix) in p.keys
    ensures c.credentials.None? && !old(Secrets.SecretFound(p, Provisioning.ClusterSecret(p.project, c))) ==>
      r == Err(Exit(1)) && p.State() == old(p.State()).(log := p.log)
  {
    var provisioned;
    provisioned, step := Provisioning.Provision(p, c, suffix, storageAccount, computeAccount);
    if provisioned.Err? {
      return Err(provisioned.error), step;
    }
    ghost var s1 := p.State();
    var template := SetupInstanceTemplate(p, c.template);
    TemplateStep(old(p.State()), s1, p.State());
    Provisioning.ReachedAcross(old(p.State()), old(p.State()), s1, p.State(), p.project, c, suffix, step);
    return Err(template.error), step;
  }
}
