/**
 * Cluster migration (shared/core/apply_migration_cluster.py): the group
 * must exist; then the new template is rolled out to its instances one at
 * a time. Nothing but the consoles that are read changes.
 */
module Migration {
  import opened Common
  import opened Cloud
  import RegionalGroup

  function GroupNotFound(name: string): Error {
    Internal(ManagedInstanceGroupNotFound, "Managed instance group " + name + " does not exist")
  }

  /** The group lookup finds the group. */
  predicate GroupFound(p: Provider, name: string)
    reads p
  {
    GetGroup(name) !in p.faults && name in p.groups
  }

  /**
   * apply_migration: a missing group is an error before any update. Once
   * the group is found, the migration succeeds exactly when the rolling
   * update ran to its end, and that end may be a startup script that
   * reported failure: the rollout's verdicts are not looked at.
   */
  method ApplyMigration(p: Provider, cluster: string) returns (r: Result<Unit>, ghost rollout: Result<RegionalGroup.Rollout>)
    modifies p
    ensures p.State() == old(p.State()).(groups := p.groups, console := p.console, log := p.log)
    ensures p.groups.Keys == old(p.groups).Keys
    ensures forall n :: n in p.groups ==> p.groups[n].members == old(p.groups)[n].members
    ensures |p.log| > |old(p.log)| && p.log[|old(p.log)|] == GetGroup(cluster)
    ensures !old(GroupFound(p, cluster)) ==>
      r == Err(GroupNotFound(cluster)) && p.log == old(p.log) + [GetGroup(cluster)] && p.console == old(p.console)
    ensures r.Ok? <==> old(GroupFound(p, cluster)) && rollout.Ok?
    ensures rollout.Ok? ==>
      cluster in old(p.groups) &&
      (var g := old(p.groups)[cluster];
       g.name in old(p.groups) &&
       RegionalGroup.InOrderUntilFailure(old(p.groups)[g.name].members, rollout.value) &&
       RegionalGroup.Applied(p.log[|old(p.log)|..]) == rollout.value.updated)
  {
    ghost var s0 := p.State();
    rollout := Err(Raised(""));
    var group := RegionalGroup.GetRegionGroup(p, cluster);
    if group.None? {
      return Err(GroupNotFound(cluster)), rollout;
    }
    ghost var s1 := p.State();
    assert s1.log == s0.log + [GetGroup(cluster)];
    var applied, _ := RegionalGroup.ApplyUpdatesToInstances(p, group.value);
    ReadThenApplied(s0.log, s1.log, p.log, GetGroup(cluster));
    rollout := applied;
    if applied.Err? {
      return Err(applied.error), rollout;
    }
    return Ok(Unit), rollout;
  }

  /** A read logged ahead of a rollout keeps its place and applies nothing. */
  lemma ReadThenApplied(l0: seq<Request>, l1: seq<Request>, l2: seq<Request>, read: Request)
    requires l1 == l0 + [read] && l1 <= l2 && !read.ApplyUpdates?
    ensures |l2| > |l0| && l2[|l0|] == read
    ensures RegionalGroup.Applied(l2[|l0|..]) == RegionalGroup.Applied(l2[|l1|..])
  {
    RegionalGroup.AppliedSince(l0, l1, l2);
    assert l1[|l0|..] == [read];
    assert [read][..0] == [];
  }
}
