/**
 * Cluster deletion (shared/core/delete_cluster.py): read the group, take
 * its template's name from the last path segment of the group's template
 * link, delete the group, then delete that template.
 */
module DeleteCluster {
  import opened Common
  import opened Cloud
  import Text
  import RegionalGroup
  import TemplateOperations

  const NoInstanceTemplate := "'NoneType' object has no attribute 'instance_template'"

  /** `link.split('/')[-1]`: the text after the last slash. */
  function TemplateNameOf(link: string): string {
    Text.Last(Text.Split(link, '/'))
  }

  /** A group created from template `name` gives back `name` as the template to delete. */
  lemma TemplateNameOfLink(project: string, name: string)
    requires NoSlash(name)
    ensures TemplateNameOf(TemplateLink(project, name)) == name
  {
    assert '/' !in name;
    var head := ComputeApi + project + "/global/instanceTemplates";
    assert TemplateLink(project, name) == head + ['/'] + name;
    Text.SplitAppend(head, '/', name);
  }

  /** The group lookup finds the group. */
  predicate GroupFound(p: Provider, name: string)
    reads p
  {
    GetGroup(name) !in p.faults && name in p.groups
  }

  /**
   * delete_cluster: a missing group fails on reading its template before
   * anything is deleted; a failed group deletion stops before the template.
   * On success exactly the group and the template it pointed at are gone,
   * the group first.
   */
  method DeleteCluster(p: Provider, cluster: string) returns (r: Result<Unit>)
    modifies p
    ensures p.State() == old(p.State()).(groups := p.groups, templates := p.templates, log := p.log)
    ensures |p.log| > |old(p.log)| && p.log[|old(p.log)|] == GetGroup(cluster)
    ensures !old(GroupFound(p, cluster)) ==>
      r == Err(AttributeError(NoInstanceTemplate)) && p.log == old(p.log) + [GetGroup(cluster)] &&
      p.templates == old(p.templates) && p.groups.Keys == old(p.groups).Keys
    ensures old(GroupFound(p, cluster)) ==>
      |p.log| > |old(p.log)| + 1 && p.log[|old(p.log)| + 1] == DeleteGroup(cluster) &&
      (DeleteGroup(cluster) in p.faults ==>
        r.Err? && p.log == old(p.log) + [GetGroup(cluster), DeleteGroup(cluster)] &&
        p.templates == old(p.templates) && p.groups.Keys == old(p.groups).Keys)
    ensures old(GroupFound(p, cluster)) && DeleteGroup(cluster) !in p.faults ==>
      var template := TemplateNameOf(old(p.groups)[cluster].templateLink);
      p.groups.Keys == old(p.groups).Keys - {cluster} &&
      (!(GetTemplate(template) !in p.faults && template in old(p.templates)) ==>
        r == Err(TemplateOperations.TemplateNotFound(template)) && p.templates == old(p.templates)) &&
      (GetTemplate(template) !in p.faults && template in old(p.templates) ==>
        (r.Ok? <==> DeleteTemplate(template) !in p.faults))
    ensures r.Ok? ==>
      cluster in old(p.groups) && p.groups.Keys == old(p.groups).Keys - {cluster} &&
      (var template := TemplateNameOf(old(p.groups)[cluster].templateLink);
       template in old(p.templates) && p.templates == old(p.templates) - {template} &&
       p.log == old(p.log) + [GetGroup(cluster), DeleteGroup(cluster), GetTemplate(template), DeleteTemplate(template)])
  {
    ghost var s0 := p.State();
    var group := RegionalGroup.GetRegionGroup(p, cluster);
    ghost var s1 := p.State();
    if group.None? {
      r := Err(AttributeError(NoInstanceTemplate));
      DeleteFrame(s0, s1, s1, s1);
    } else {
      var template := TemplateNameOf(group.value.templateLink);
      var deleted := RegionalGroup.DeleteRegionGroup(p, cluster);
      ghost var s2 := p.State();
      if deleted.Err? {
        r := Err(deleted.error);
        DeleteFrame(s0, s1, s2, s2);
        LogPair(s0.log, s1.log, s2.log, GetGroup(cluster), DeleteGroup(cluster));
      } else {
        r := TemplateOperations.DeleteInstanceTemplateIntended(p, template);
        DeleteFrame(s0, s1, s2, p.State());
        if r.Ok? {
          DeleteLog(s0.log, s1.log, s2.log, p.log, cluster, template);
        }
      }
      LogHead(s0.log, s1.log, s2.log, GetGroup(cluster));
      LogPrefix(s1.log, s2.log, p.log, DeleteGroup(cluster));
    }
  }

  /** The lookup, the group deletion and the template deletion change only groups, templates and the log. */
  lemma DeleteFrame(s0: CloudState, s1: CloudState, s2: CloudState, s3: CloudState)
    requires OnlyGroupsChanged(s0, s1) && OnlyGroupsChanged(s1, s2)
    requires s3 == s2.(templates := s3.templates, log := s3.log) && s2.log <= s3.log
    ensures s3 == s0.(groups := s3.groups, templates := s3.templates, log := s3.log)
    ensures s3.groups == s2.groups && s0.log <= s3.log
  {
  }

  /** The four entries of a complete deletion, in order. */
  lemma DeleteLog(l0: seq<Request>, l1: seq<Request>, l2: seq<Request>, l3: seq<Request>, cluster: string, template: string)
    requires l1 == l0 + [GetGroup(cluster)] && l2 == l1 + [DeleteGroup(cluster)]
    requires l3 == l2 + [GetTemplate(template), DeleteTemplate(template)]
    ensures l3 == l0 + [GetGroup(cluster), DeleteGroup(cluster), GetTemplate(template), DeleteTemplate(template)]
  {
  }
}
