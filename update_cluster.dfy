/**
 * The cluster update behind the HTTP API (shared/core/update_cluster.py):
 * the group must exist; then the secret, key, bucket, script and template
 * steps run in that order, the first failure ending the run with nothing
 * rolled back. The template step never yields a template (an existing one
 * is refused, and a missing one fails on reading the absent template's
 * labels), so an update never reaches the group or the firewall and never
 * changes a template, a group or a rule.
 */
module UpdateCluster {
  import opened Common
  import opened Cloud
  import Entities
  import Provisioning
  import RegionalGroup
  import TemplateLib

  function GroupNotFound(name: string): Error {
    Internal(ManagedInstanceGroupNotFound, "Managed instance group " + name + " does not exist")
  }

  const ExistsTail := " already exists, To update the cluster we would need to create a new instance template with new name "

  function TemplateExists(name: string): Error {
    Internal(InstanceTemplateAlreadyExists, "Instance template " + name + ExistsTail)
  }

  const NoLabels := "'NoneType' object has no attribute 'labels'"

  /** The template lookup finds the template. */
  predicate TemplateFound(p: Provider, name: string)
    reads p
  {
    GetTemplate(name) !in p.faults && name in p.templates
  }

  /**
   * setup_instance_template: read the image, then the template. An existing
   * template is refused; a missing one fails while building the create
   * call. Either way nothing but the log changes.
   */
  method SetupInstanceTemplate(p: Provider, t: Entities.TemplateSpec) returns (r: Result<Template>)
    modifies p
    ensures r.Err?
    ensures p.State() == old(p.State()).(log := p.log)
    ensures var image := GetImage(t.imageProject, t.imageFamily);
      var imageFound := image !in p.faults && (t.imageProject, t.imageFamily) in p.images;
      (!imageFound ==> p.log == old(p.log) + [image] && r.error.Internal? && r.error.kind == ImageNotFound) &&
      (imageFound ==> (p.log == old(p.log) + [image, GetTemplate(t.name)] &&
        (TemplateFound(p, t.name) ==> r.error == TemplateExists(t.name)) &&
        (!TemplateFound(p, t.name) ==> r.error == AttributeError(NoLabels))))
  {
    ghost var l0 := p.log;
    var image := TemplateLib.GetImageFromFamily(p, t.imageProject, t.imageFamily);
    if image.Err? {
      return Err(image.error);
    }
    ghost var l1 := p.log;
    var template := TemplateLib.GetInstanceTemplate(p, t.name);
    LogPair(l0, l1, p.log, GetImage(t.imageProject, t.imageFamily), GetTemplate(t.name));
    if template.None? {
      return Err(AttributeError(NoLabels));
    }
    return Err(TemplateExists(t.name));
  }

  /**
   * update_mig: patch the group to the template; roll the update out
   * instance by instance only for an update-and-migrate; then scale from
   * the patched group's member count to the cluster's size. Shrinking
   * always fails.
   */
  method UpdateMig(p: Provider, c: Entities.ClusterSpec, template: Template, updateType: Entities.UpdateType, now: nat)
    returns (r: Result<Unit>)
    modifies p
    ensures p.State() == old(p.State()).(groups := p.groups, console := p.console, log := p.log)
    ensures p.groups.Keys == old(p.groups).Keys && old(p.log) <= p.log
    ensures updateType == Entities.UpdateNoMigrate ==> p.console == old(p.console)
    ensures |p.log| > |old(p.log)| &&
      p.log[|old(p.log)|] == PatchGroup(c.name, RegionalGroup.VersionAt(TemplateLink(p.project, template.name), now), RegionalGroup.PatchPolicy)
    ensures r.Ok? ==>
      c.name in old(p.groups) && |old(p.groups)[c.name].members| <= c.size &&
      c.name in p.groups && p.groups[c.name].templateLink == TemplateLink(p.project, template.name)
  {
    ghost var s0 := p.State();
    var mig := RegionalGroup.UpdateRegionGroup(p, c.name, template, now);
    ghost var s1 := p.State();
    if mig.Err? {
      MigStep(s0, s1, s1, s1);
      return Err(mig.error);
    }
    if updateType == Entities.UpdateAndMigrate {
      var rollout, _ := RegionalGroup.ApplyUpdatesToInstances(p, mig.value);
      if rollout.Err? {
        MigStep(s0, s1, p.State(), p.State());
        return Err(rollout.error);
      }
    }
    ghost var s2 := p.State();
    var scaled := Scale(p, mig.value, c.name, c.size);
    MigStep(s0, s1, s2, p.State());
    if scaled.Err? {
      return Err(scaled.error);
    }
    return Ok(Unit);
  }

  /** The scaling step of update_mig: it keeps every group, fails on shrinking, and on success keeps the patched template. */
  method Scale(p: Provider, g: Group, key: string, wanted: int) returns (r: Result<Unit>)
    modifies p
    ensures OnlyGroupsChanged(old(p.State()), p.State()) && p.groups.Keys == old(p.groups).Keys
    ensures r.Ok? ==> |g.members| <= wanted
    ensures r.Ok? && key in old(p.groups) ==> p.groups[key].templateLink == old(p.groups)[key].templateLink
  {
    r := RegionalGroup.ScaleGroup(p, g, g.TargetSize(), wanted);
  }

  /** The patch, the rollout and the scaling together change only groups, consoles and the log, and keep the patch first. */
  lemma MigStep(s0: CloudState, s1: CloudState, s2: CloudState, s3: CloudState)
    requires OnlyGroupsChanged(s0, s1) && s1.groups.Keys == s0.groups.Keys && |s1.log| > |s0.log|
    requires OnlyConsoleRead(s1, s2)
    requires OnlyGroupsChanged(s2, s3) && s3.groups.Keys == s2.groups.Keys
    ensures s3 == s0.(groups := s3.groups, console := s3.console, log := s3.log)
    ensures s3.groups.Keys == s0.groups.Keys && s0.log <= s3.log
    ensures s2.console == s1.console ==> s3.console == s0.console
    ensures s3.log[|s0.log|] == s1.log[|s0.log|]
  {
    assert s1.log <= s3.log;
  }

  /** Nothing an update may not touch has changed: templates, groups' membership, rules, disks, consoles. */
  predicate UpdateFrame(s0: CloudState, s1: CloudState) {
    s1.templates == s0.templates && s1.firewalls == s0.firewalls && s1.disks == s0.disks &&
    s1.console == s0.console && s1.groups.Keys == s0.groups.Keys &&
    (forall n :: n in s1.groups ==> s1.groups[n].members == s0.groups[n].members) &&
    s0.log <= s1.log
  }

  /** The group lookup changes nothing an update may not touch, and comes first in the log. */
  lemma LookupStep(s0: CloudState, s1: CloudState, name: string)
    requires Cloud.OnlyGroupsChanged(s0, s1) && s1.groups.Keys == s0.groups.Keys
    requires forall n :: n in s1.groups ==> s1.groups[n] == s0.groups[n].(settling := s1.groups[n].settling)
    requires s1.log == s0.log + [GetGroup(name)]
    ensures UpdateFrame(s0, s1) && s1.secrets == s0.secrets && s1.keys == s0.keys && s1.buckets == s0.buckets
  {
    forall n | n in s1.groups
      ensures s1.groups[n].members == s0.groups[n].members
    {
    }
  }

  /** The provisioning steps and the template step extend the frame, and keep the log's head. */
  lemma ProvisionStep(s0: CloudState, s1: CloudState, s2: CloudState, s3: CloudState, name: string)
    requires UpdateFrame(s0, s1) && s1.log == s0.log + [GetGroup(name)]
    requires Provisioning.OnlyProvisioned(s1, s2)
    requires s3 == s2.(log := s3.log) && s2.log <= s3.log
    ensures UpdateFrame(s0, s3) && s3.log[|s0.log|] == GetGroup(name)
    ensures s3.secrets == s2.secrets && s3.keys == s2.keys && s3.buckets == s2.buckets
  {
    assert s1.log <= s3.log;
    assert s3.log[|s0.log|] == s1.log[|s0.log|];
  }

  /**
   * update_cluster: a missing group is an error before any other step;
   * otherwise the provisioning steps run, and then the template step, which
   * always fails. The group update and the firewall step are never reached.
   */
  method UpdateCluster(p: Provider, c: Entities.ClusterSpec, updateType: Entities.UpdateType, suffix: string,
                       storageAccount: Option<string>, computeAccount: Option<string>)
    returns (r: Result<Unit>, ghost step: Provisioning.Step)
    modifies p
    ensures r.Err?
    ensures Provisioning.Reached(old(p.State()), p.State(), p.project, c, suffix, step)
    ensures step == Provisioning.AtLookup <==> !(GetGroup(c.name) !in p.faults && c.name in old(p.groups))
    ensures step == Provisioning.AtTemplate ==>
      r.error == TemplateExists(c.template.name) || r.error == AttributeError(NoLabels) ||
      (r.error.Internal? && r.error.kind == ImageNotFound)
    ensures UpdateFrame(old(p.State()), p.State())
    ensures |p.log| > |old(p.log)| && p.log[|old(p.log)|] == GetGroup(c.name)
    ensures !(GetGroup(c.name) !in p.faults && c.name in old(p.groups)) ==>
      r == Err(GroupNotFound(c.name)) && p.log == old(p.log) + [GetGroup(c.name)] &&
      p.secrets == old(p.secrets) && p.keys == old(p.keys) && p.buckets == old(p.buckets)
    ensures p.keys != old(p.keys) ==> Provisioning.ClusterSecret(p.project, c) in p.secrets
    ensures p.buckets != old(p.buckets) ==> Provisioning.ClusterKey(p.project, c, suffix) in p.keys
  {
    ghost var s0 := p.State();
    var group := RegionalGroup.GetRegionGroup(p, c.name);
    ghost var s1 := p.State();
    LookupStep(s0, s1, c.name);
    if group.None? {
      return Err(GroupNotFound(c.name)), Provisioning.AtLookup;
    }
    var provisioned;
    provisioned, step := Provisioning.Provision(p, c, suffix, storageAccount, computeAccount);
    ghost var s2 := p.State();
    if provisioned.Err? {
      ProvisionStep(s0, s1, s2, s2, c.name);
      Provisioning.ReachedAcross(s0, s1, s2, s2, p.project, c, suffix, step);
      return Err(provisioned.error), step;
    }
    var template := SetupInstanceTemplate(p, c.template);
    ProvisionStep(s0, s1, s2, p.State(), c.name);
    Provisioning.ReachedAcross(s0, s1, s2, p.State(), p.project, c, suffix, step);
    return Err(template.error), step;
  }
}
