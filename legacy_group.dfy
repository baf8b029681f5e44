/**
 * The older group scaler (lib/regional_managed_instance.py): the group is
 * created from a template looked up by name, instances are created in a
 * single batch with no seed-first step, and scaling down deletes the
 * members with the highest parsed indices.
 */
module LegacyGroup {
  import opened Common
  import Text
  import opened Cloud
  import opened InstanceNaming

  /** The two data disks whose devices outlive their instances. */
  const LegacyPreserved := map["persistent-disk-0" := "never", "persistent-disk-1" := "never"]

  const LegacyPolicy := UpdatePolicy(Some("OPPORTUNISTIC"), None, None, None, None, Some("NONE"))

  /** create_region_managed_instance_group_request of the older copy. */
  function LegacyGroupRequest(name: string, link: string, targetSize: int): (g: GroupRequest)
    ensures g.name == name && g.baseInstanceName == name && g.templateLink == link && g.targetSize == targetSize
    ensures g.preservedDisks.Keys == {"persistent-disk-0", "persistent-disk-1"}
    ensures forall dev :: dev in g.preservedDisks ==> g.preservedDisks[dev] == "never"
    ensures g.targetShape == "BALANCED" && g.policy.kind == Some("OPPORTUNISTIC")
  {
    GroupRequest(name, name, link, targetSize, LegacyPreserved, "BALANCED", LegacyPolicy)
  }

  /**
   * create_region_managed_instance_group: fetch the template by name (an
   * error propagates), insert the group with target size 0, wait, and read
   * it until it reports stable.
   */
  method CreateRegionGroup(p: Provider, name: string, templateName: string) returns (r: Result<Group>)
    modifies p
    ensures r.Ok? <==>
      (GetTemplate(templateName) !in p.faults && templateName in old(p.templates) &&
       InsertGroup(LegacyGroupRequest(name, TemplateLink(p.project, old(p.templates)[templateName].name), 0)) !in p.faults &&
       name !in old(p.groups) && GetGroup(name) !in p.faults)
    ensures r.Ok? ==> name in p.groups && r.value == p.groups[name] && r.value.settling == 0
    ensures r.Ok? ==> r.value.members == [] && r.value.preservedDisks == LegacyPreserved
    ensures forall n :: n != name ==> (n in p.groups <==> n in old(p.groups))
    ensures forall n :: n != name && n in p.groups ==> p.groups[n] == old(p.groups)[n]
    ensures OnlyGroupsChanged(old(p.State()), p.State())
    ensures |p.log| > |old(p.log)| && p.log[|old(p.log)|] == GetTemplate(templateName)
    ensures !(GetTemplate(templateName) !in p.faults && templateName in old(p.templates)) ==>
      p.groups == old(p.groups)
  {
    ghost var log0 := p.log;
    var template := p.GetTemplateCall(templateName);
    ghost var s0 := p.State();
    LogHead(log0, s0.log, s0.log, GetTemplate(templateName));
    if template.Err? {
      return Err(template.error);
    }
    var req := LegacyGroupRequest(name, TemplateLink(p.project, template.value.name), 0);
    var f := p.InsertGroupCall(req);
    var waited := LegacyWait(f);
    if waited.Err? {
      return Err(waited.error);
    }
    ghost var s1 := p.State();
    ghost var created := Group(name, req.templateLink, [], LegacyPreserved, "BALANCED", LegacyPolicy, [], p.settleReads);
    r := PollUntilStable(p, name);
    InsertedThenChanged(s0, s1, p.State(), name, created);
    LogHeadKept(log0, s0.log, p.log);
  }

  /**
   * region_adding_instances of the older copy: `<group>-000` ..
   * `<group>-<size-1>` in one request, none told a master hostname.
   */
  method AddingInstances(p: Provider, g: Group, size: int) returns (r: Result<Unit>)
    modifies p
    ensures var req := CreateInstances(g.name, Batch(g.name, 0, size, None));
      p.log == old(p.log) + [req] &&
      (r.Ok? <==> req !in p.faults && g.name in old(p.groups))
    ensures r.Ok? ==>
      p.groups == old(p.groups)[g.name := old(p.groups)[g.name].(
        members := old(p.groups)[g.name].members + NewUrls(p.project, p.zone, Batch(g.name, 0, size, None)))]
    ensures r.Err? ==> p.groups == old(p.groups)
    ensures OnlyGroupsChanged(old(p.State()), p.State())
  {
    var f := p.CreateInstancesCall(g.name, Batch(g.name, 0, size, None));
    var waited := LegacyWait(f);
    if waited.Err? {
      return Err(waited.error);
    }
    return Ok(Unit);
  }

  /** The batch names exactly `<group>-000` .. `<group>-<size-1>`, and no seed is singled out. */
  lemma AddedNames(group: string, size: int)
    ensures |Batch(group, 0, size, None)| == (if size > 0 then size else 0)
    ensures forall k :: 0 <= k < |Batch(group, 0, size, None)| ==>
      Batch(group, 0, size, None)[k] == NewInstance(InstanceName(group, k), None)
  {
  }

  // ------------------------------------------------------------ scale-down

  /** A listed member and the index parsed from its name. */
  datatype Entry = Entry(url: string, index: nat)

  /** `[{"name": m, "index": int(...)} for m in members]`: the first unparsable name raises. */
  function Entries(members: seq<string>): (r: Result<seq<Entry>>)
    ensures r.Ok? <==> forall k :: 0 <= k < |members| ==> IndexOf(members[k]).Ok?
    ensures r.Ok? ==>
      (|r.value| == |members| &&
       forall k :: 0 <= k < |members| ==> r.value[k] == Entry(members[k], IndexOf(members[k]).value))
  {
    if members == [] then Ok([])
    else
      var first := IndexOf(members[0]);
      if first.Err? then Err(first.error)
      else
        var rest := Entries(members[1..]);
        if rest.Err? then rest
        else Ok([Entry(members[0], first.value)] + rest.value)
  }

  predicate SortedByIndex(s: seq<Entry>) {
    forall i, j :: 0 <= i < j < |s| ==> s[i].index <= s[j].index
  }

  /** Place `e` before the first entry with a larger index, after the ones equal to it. */
  function Insert(e: Entry, s: seq<Entry>): (t: seq<Entry>)
    requires SortedByIndex(s)
    ensures SortedByIndex(t) && multiset(t) == multiset(s) + multiset{e} && |t| == |s| + 1
    ensures t[0] == e || (s != [] && t[0] == s[0])
  {
    if s == [] then [e]
    else if e.index < s[0].index then
      ConsSorted(e, s);
      [e] + s
    else
      var rest := Insert(e, s[1..]);
      assert s == [s[0]] + s[1..];
      ConsSorted(s[0], rest);
      [s[0]] + rest
  }

  /** An entry no larger than the head of a sorted sequence can go in front of it. */
  lemma ConsSorted(x: Entry, rest: seq<Entry>)
    requires SortedByIndex(rest) && (rest != [] ==> x.index <= rest[0].index)
    ensures SortedByIndex([x] + rest)
  {
    var t := [x] + rest;
    forall i, j | 0 <= i < j < |t|
      ensures t[i].index <= t[j].index
    {
      if i == 0 {
        assert t[j] == rest[j - 1];
      } else {
        assert t[i] == rest[i - 1] && t[j] == rest[j - 1];
      }
    }
  }

  /** `list.sort(key=lambda x: x['index'])`, as an insertion sort. */
  function SortByIndex(s: seq<Entry>): (t: seq<Entry>)
    ensures SortedByIndex(t) && multiset(t) == multiset(s) && |t| == |s|
  {
    if s == [] then []
    else
      assert s == s[..|s| - 1] + [s[|s| - 1]];
      Insert(s[|s| - 1], SortByIndex(s[..|s| - 1]))
  }

  /** `entries[-k:]` for k >= 1: the last k, or all of them when there are fewer. */
  function LastK(s: seq<Entry>, k: nat): (t: seq<Entry>)
    requires k >= 1
    ensures |t| == if k <= |s| then k else |s|
    ensures t == s[|s| - |t|..]
  {
    if k <= |s| then s[|s| - k..] else s
  }

  /** The URLs of the entries, in order. */
  function UrlsOf(s: seq<Entry>): (u: seq<string>)
    ensures |u| == |s| && forall i :: 0 <= i < |s| ==> u[i] == s[i].url
  {
    seq(|s|, i requires 0 <= i < |s| => s[i].url)
  }

  /** The entries a scale-down by k deletes: the last k once sorted by index. */
  function Surplus(entries: seq<Entry>, k: nat): seq<Entry>
    requires k >= 1
  {
    LastK(SortByIndex(entries), k)
  }

  /** The members a scale-down from `size` to `wanted` deletes, or the parse error. */
  function ToDelete(members: seq<string>, size: int, wanted: int): Result<seq<Entry>>
    requires size > wanted
  {
    var entries :- Entries(members);
    Ok(Surplus(entries, size - wanted))
  }

  /** No kept entry has a higher index than a deleted one. */
  predicate NoneKeptAbove(kept: seq<Entry>, del: seq<Entry>) {
    forall a, b :: 0 <= a < |kept| && 0 <= b < |del| ==> kept[a].index <= del[b].index
  }

  /** Cutting off the last k entries loses none of them. */
  lemma LastKSplit(s: seq<Entry>, k: nat)
    requires k >= 1
    ensures var del := LastK(s, k);
      multiset(s[..|s| - |del|]) + multiset(del) == multiset(s)
  {
    var del := LastK(s, k);
    assert s == s[..|s| - |del|] + del;
  }

  /** Of a sorted sequence, the last k entries hold the highest indices. */
  lemma LastKHighest(sorted: seq<Entry>, k: nat)
    requires k >= 1 && SortedByIndex(sorted)
    ensures var del := LastK(sorted, k);
      NoneKeptAbove(sorted[..|sorted| - |del|], del)
  {
    var del := LastK(sorted, k);
    var cut := |sorted| - |del|;
    var kept := sorted[..cut];
    forall a, b | 0 <= a < |kept| && 0 <= b < |del|
      ensures kept[a].index <= del[b].index
    {
      assert kept[a] == sorted[a] && del[b] == sorted[cut + b];
    }
  }

  /**
   * A scale-down by k deletes min(k, n) of n entries, and what it keeps
   * together with what it deletes are exactly the entries.
   */
  lemma ScaleDownSplit(entries: seq<Entry>, k: nat)
    requires k >= 1
    ensures |Surplus(entries, k)| == (if k <= |entries| then k else |entries|)
    ensures var sorted := SortByIndex(entries);
      var del := Surplus(entries, k);
      multiset(sorted[..|sorted| - |del|]) + multiset(del) == multiset(entries)
  {
    var sorted := SortByIndex(entries);
    LastKSplit(sorted, k);
  }

  /** No entry a scale-down keeps has a higher index than one it deletes. */
  lemma DeletesHighestIndices(entries: seq<Entry>, k: nat)
    requires k >= 1
    ensures var sorted := SortByIndex(entries);
      var del := Surplus(entries, k);
      NoneKeptAbove(sorted[..|sorted| - |del|], del)
  {
    var sorted := SortByIndex(entries);
    LastKHighest(sorted, k);
  }

  /** Parsing gives each member the index its own name ends with. */
  lemma EntriesOfNamedMembers(project: Segment, zone: Segment, group: string, n: nat)
    requires NoSlash(group)
    ensures var members := seq(n, k requires 0 <= k => InstanceUrl(project, zone, InstanceName(group, k)));
      Entries(members).Ok? &&
      forall k :: 0 <= k < n ==> Entries(members).value[k] == Entry(members[k], k)
  {
    var members := seq(n, k requires 0 <= k => InstanceUrl(project, zone, InstanceName(group, k)));
    forall k | 0 <= k < n
      ensures IndexOf(members[k]) == Ok(k)
    {
      IndexOfInstanceUrl(project, zone, group, k);
    }
  }

  /**
   * region_scaling_mig of the older copy from `size` to `wanted`: growing
   * creates `<group>-<size>` .. `<group>-<wanted-1>`; shrinking lists the
   * members, parses and sorts their indices, and deletes the last
   * (size - wanted); equal sizes do nothing.
   */
  method ScalingGroup(p: Provider, g: Group, size: nat, wanted: int) returns (r: Result<Unit>)
    modifies p
    ensures size == wanted ==> r == Ok(Unit) && p.State() == old(p.State())
    ensures size < wanted ==>
      var req := CreateInstances(g.name, Batch(g.name, size, wanted, None));
      p.log == old(p.log) + [req] && (r.Ok? <==> req !in p.faults && g.name in old(p.groups)) &&
      (r.Ok? ==> p.groups == old(p.groups)[g.name := old(p.groups)[g.name].(
        members := old(p.groups)[g.name].members + NewUrls(p.project, p.zone, Batch(g.name, size, wanted, None)))])
    ensures size > wanted ==>
      (r.Ok? <==>
        (ListInstances(g.name) !in p.faults && g.name in old(p.groups) &&
         ToDelete(old(p.groups)[g.name].members, size, wanted).Ok? &&
         DeleteInstances(g.name, UrlsOf(ToDelete(old(p.groups)[g.name].members, size, wanted).value)) !in p.faults))
    ensures size > wanted && r.Ok? ==>
      var urls := UrlsOf(ToDelete(old(p.groups)[g.name].members, size, wanted).value);
      p.log == old(p.log) + [ListInstances(g.name), DeleteInstances(g.name, urls)] &&
      p.groups == old(p.groups)[g.name := old(p.groups)[g.name].(members := Without(old(p.groups)[g.name].members, urls))]
    ensures OnlyGroupsChanged(old(p.State()), p.State())
  {
    if size < wanted {
      var f := p.CreateInstancesCall(g.name, Batch(g.name, size, wanted, None));
      var waited := LegacyWait(f);
      if waited.Err? {
        return Err(waited.error);
      }
      return Ok(Unit);
    } else if size > wanted {
      var listed := p.ListInstancesCall(g.name);
      if listed.Err? {
        return Err(listed.error);
      }
      var chosen := ToDelete(listed.value, size, wanted);
      if chosen.Err? {
        return Err(chosen.error);
      }
      var f := p.DeleteInstancesCall(g.name, UrlsOf(chosen.value));
      var waited := LegacyWait(f);
      if waited.Err? {
        return Err(waited.error);
      }
      return Ok(Unit);
    }
    return Ok(Unit);
  }
}
