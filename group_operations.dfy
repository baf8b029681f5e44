/**
 * Managed instance group operations behind the HTTP API
 * (shared/core/managed_instance_group_operations.py): create needs the
 * template and no group, update needs both, delete needs the group. Each
 * check that fails raises before any change.
 */
module GroupOperations {
  import opened Common
  import opened Cloud
  import opened InstanceNaming
  import RegionalGroup
  import TemplateLib

  function TemplateMissing(name: string): Error {
    Internal(InstanceTemplateNotFound, "Instance template " + name + " not found")
  }

  function GroupExists(name: string): Error {
    Internal(ManagedInstanceGroupAlreadyExists, "Managed instance group " + name + " already exists")
  }

  function GroupMissing(name: string): Error {
    Internal(ManagedInstanceGroupNotFound, "Managed instance group " + name + " not found")
  }

  /** The template lookup finds the template. */
  predicate TemplateFound(p: Provider, name: string)
    reads p
  {
    GetTemplate(name) !in p.faults && name in p.templates
  }

  /** The group lookup finds the group. */
  predicate GroupFound(p: Provider, name: string)
    reads p
  {
    GetGroup(name) !in p.faults && name in p.groups
  }

  /**
   * create_managed_instance_group: the template must exist and the group
   * must not; the group is created empty and then `size` instances are
   * added. The answer is the group as read right after its creation.
   */
  method CreateManagedInstanceGroup(p: Provider, name: string, templateName: string, size: int) returns (r: Result<Group>)
    modifies p
    ensures OnlyGroupsChanged(old(p.State()), p.State())
    ensures |p.log| > |old(p.log)| && p.log[|old(p.log)|] == GetTemplate(templateName)
    ensures !old(TemplateFound(p, templateName)) ==>
      r == Err(TemplateMissing(templateName)) && p.log == old(p.log) + [GetTemplate(templateName)] && p.groups == old(p.groups)
    ensures old(TemplateFound(p, templateName)) && old(GroupFound(p, name)) ==>
      r == Err(GroupExists(name)) && p.log == old(p.log) + [GetTemplate(templateName), GetGroup(name)] &&
      p.groups.Keys == old(p.groups).Keys
    ensures r.Ok? ==> name !in old(p.groups) && name in p.groups && r.value.name == name && r.value.members == []
    ensures r.Ok? && NoSlash(name) ==>
      var members := p.groups[name].members;
      |members| == (if size > 1 then size else 1) &&
      forall k :: 0 <= k < |members| ==> members[k] == InstanceUrl(p.project, p.zone, InstanceName(name, k))
  {
    ghost var s0 := p.State();
    var template := TemplateLib.GetInstanceTemplate(p, templateName);
    ghost var s1 := p.State();
    if template.None? {
      r := Err(TemplateMissing(templateName));
    } else {
      var group := RegionalGroup.GetRegionGroup(p, name);
      if group.Some? {
        LogPair(s0.log, s1.log, p.log, GetTemplate(templateName), GetGroup(name));
        r := Err(GroupExists(name));
      } else {
        ghost var s2 := p.State();
        r := RegionalGroup.CreateAndFill(p, name, template.value, size);
        OnlyGroupsChangedChain(s1, s2, p.State());
      }
    }
    OnlyGroupsChangedAfter(s0, s1, p.State(), GetTemplate(templateName));
  }

  /**
   * update_managed_instance_group: the template and the group must exist;
   * the group is patched to the template, then scaled from its member count
   * to `size`. Shrinking always fails, so a successful update never asked
   * for fewer instances. The answer is the patched group before scaling.
   */
  method UpdateManagedInstanceGroup(p: Provider, name: string, templateName: string, size: int, now: nat)
    returns (r: Result<Group>)
    modifies p
    ensures OnlyGroupsChanged(old(p.State()), p.State())
    ensures |p.log| > |old(p.log)| && p.log[|old(p.log)|] == GetTemplate(templateName)
    ensures !old(TemplateFound(p, templateName)) ==>
      r == Err(TemplateMissing(templateName)) && p.log == old(p.log) + [GetTemplate(templateName)] && p.groups == old(p.groups)
    ensures old(TemplateFound(p, templateName)) && !old(GroupFound(p, name)) ==>
      r == Err(GroupMissing(name)) && p.log == old(p.log) + [GetTemplate(templateName), GetGroup(name)] &&
      p.groups.Keys == old(p.groups).Keys
    ensures old(TemplateFound(p, templateName)) && old(GroupFound(p, name)) ==>
      |p.log| > |old(p.log)| + 2 &&
      p.log[|old(p.log)| + 2] == PatchGroup(name, RegionalGroup.VersionAt(TemplateLink(p.project, old(p.templates)[templateName].name), now), RegionalGroup.PatchPolicy)
    ensures r.Ok? ==>
      name in old(p.groups) && |old(p.groups)[name].members| <= size &&
      r.value.templateLink == TemplateLink(p.project, old(p.templates)[templateName].name) &&
      r.value.members == old(p.groups)[name].members
    ensures old(TemplateFound(p, templateName)) && old(GroupFound(p, name)) ==>
      (var patch := PatchGroup(name, RegionalGroup.VersionAt(TemplateLink(p.project, old(p.templates)[templateName].name), now), RegionalGroup.PatchPolicy);
       patch !in p.faults && size < |old(p.groups)[name].members| ==> r == Err(TypeError(RegionalGroup.ScaleDownArity)))
  {
    ghost var s0 := p.State();
    var template := TemplateLib.GetInstanceTemplate(p, templateName);
    ghost var s1 := p.State();
    if template.None? {
      r := Err(TemplateMissing(templateName));
    } else {
      var group := RegionalGroup.GetRegionGroup(p, name);
      ghost var s2 := p.State();
      if group.None? {
        LogPair(s0.log, s1.log, p.log, GetTemplate(templateName), GetGroup(name));
        r := Err(GroupMissing(name));
      } else {
        assert s2.groups[name].members == s0.groups[name].members;
        assert |s2.log| == |s0.log| + 2;
        r := PatchAndScale(p, name, template.value, size, now);
        OnlyGroupsChangedChain(s1, s2, p.State());
      }
    }
    OnlyGroupsChangedAfter(s0, s1, p.State(), GetTemplate(templateName));
  }

  /** The patch and the scaling an update makes once both lookups succeeded. */
  method PatchAndScale(p: Provider, name: string, template: Template, size: int, now: nat) returns (r: Result<Group>)
    modifies p
    ensures OnlyGroupsChanged(old(p.State()), p.State()) && p.groups.Keys == old(p.groups).Keys
    ensures |p.log| > |old(p.log)| &&
      p.log[|old(p.log)|] == PatchGroup(name, RegionalGroup.VersionAt(TemplateLink(p.project, template.name), now), RegionalGroup.PatchPolicy)
    ensures r.Ok? ==>
      name in old(p.groups) && |old(p.groups)[name].members| <= size &&
      r.value.templateLink == TemplateLink(p.project, template.name) && r.value.members == old(p.groups)[name].members
    ensures (var patch := PatchGroup(name, RegionalGroup.VersionAt(TemplateLink(p.project, template.name), now), RegionalGroup.PatchPolicy);
      name in old(p.groups) && GetGroup(name) !in p.faults && patch !in p.faults && size < |old(p.groups)[name].members| ==>
      r == Err(TypeError(RegionalGroup.ScaleDownArity)))
  {
    ghost var s0 := p.State();
    var updated := RegionalGroup.UpdateRegionGroup(p, name, template, now);
    if updated.Err? {
      return Err(updated.error);
    }
    ghost var s1 := p.State();
    var scaled := RegionalGroup.ScaleGroup(p, updated.value, updated.value.TargetSize(), size);
    OnlyGroupsChangedChain(s0, s1, p.State());
    LogHeadKept(s0.log, s1.log, p.log);
    if scaled.Err? {
      return Err(scaled.error);
    }
    return updated;
  }

  /** delete_managed_instance_group: the group must exist; then it is deleted. */
  method DeleteManagedInstanceGroup(p: Provider, name: string) returns (r: Result<Unit>)
    modifies p
    ensures OnlyGroupsChanged(old(p.State()), p.State())
    ensures !old(GroupFound(p, name)) ==>
      r == Err(GroupMissing(name)) && p.log == old(p.log) + [GetGroup(name)] && p.groups.Keys == old(p.groups).Keys
    ensures old(GroupFound(p, name)) ==>
      p.log == old(p.log) + [GetGroup(name), DeleteGroup(name)] && (r.Ok? <==> DeleteGroup(name) !in p.faults)
    ensures r.Ok? ==> name in old(p.groups) && p.groups.Keys == old(p.groups).Keys - {name}
    ensures r.Err? ==> p.groups.Keys == old(p.groups).Keys
  {
    var group := RegionalGroup.GetRegionGroup(p, name);
    if group.None? {
      return Err(GroupMissing(name));
    }
    r := RegionalGroup.DeleteRegionGroup(p, name);
  }
}
