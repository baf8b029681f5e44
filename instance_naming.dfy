/**
 * How the group scalers name instances and read names back from the
 * instance URLs a group lists: `<group>-<index:03d>`, the hostname
 * `<name>.<zone>.c.<project>.internal` the seed is reachable at, and the
 * index recovered from the name's last '-' part.
 */
module InstanceNaming {
  import opened Common
  import Text
  import opened Cloud

  /** `f"{group}-{index:03d}"`. */
  function InstanceName(group: string, index: nat): string {
    group + "-" + Text.ZeroPad3(index)
  }

  /** The instances of `range(from, to)`, each carrying the seed's hostname when one is given. */
  function Batch(group: string, from: nat, to: int, master: Option<string>): seq<NewInstance> {
    seq(if to > from then to - from else 0, k requires 0 <= k => NewInstance(InstanceName(group, from + k), master))
  }

  /** `url.split("/")[-1]` and `url.split("/")[-3]`: the instance's name and zone. */
  function NameAndZone(url: string): (r: Result<(string, string)>)
    ensures r.Ok? <==> |Text.Split(url, '/')| >= 3
  {
    var parts := Text.Split(url, '/');
    var zone :- Text.FromEnd(parts, 3);
    Ok((Text.Last(parts), zone))
  }

  /** The seed's full hostname, built from its URL as the group lists it. */
  function MasterHostname(url: string, project: string): (r: Result<string>)
    ensures r.Ok? <==> NameAndZone(url).Ok?
  {
    var nz :- NameAndZone(url);
    Ok(nz.0 + "." + nz.1 + ".c." + project + ".internal")
  }

  /** `int(url.split('/')[-1].split('-')[-1])`: the index a name ends with. */
  function IndexOf(url: string): (r: Result<nat>)
    ensures r.Ok? ==> Text.AllDigits(Text.Last(Text.Split(Text.Last(Text.Split(url, '/')), '-')))
  {
    Text.ParseInt(Text.Last(Text.Split(Text.Last(Text.Split(url, '/')), '-')))
  }

  lemma DigitsHaveNoSeparator(s: string, c: char)
    requires Text.AllDigits(s) && !Text.IsDigit(c)
    ensures c !in s
  {
  }

  /** The split of an instance URL ends with its zone, "instances" and its name. */
  lemma {:induction false} SplitInstanceUrl(project: Segment, zone: Segment, name: string)
    requires NoSlash(name)
    ensures var parts := Text.Split(InstanceUrl(project, zone, name), '/');
      |parts| >= 3 && parts[|parts| - 3] == zone && parts[|parts| - 2] == "instances" && parts[|parts| - 1] == name
  {
    var a := ComputeApi + project + "/zones";
    assert InstanceUrl(project, zone, name) == a + ['/'] + zone + ['/'] + "instances" + ['/'] + name;
    Text.SplitAppend(a + ['/'] + zone + ['/'] + "instances", '/', name);
    Text.SplitAppend(a + ['/'] + zone, '/', "instances");
    Text.SplitAppend(a, '/', zone);
  }

  /**
   * For a URL the group itself lists, the hostname is the instance name,
   * then its zone, then the project's internal domain.
   */
  lemma HostnameOfInstanceUrl(project: Segment, zone: Segment, name: string)
    requires NoSlash(name)
    ensures MasterHostname(InstanceUrl(project, zone, name), project) == Ok(name + "." + zone + ".c." + project + ".internal")
    ensures NameAndZone(InstanceUrl(project, zone, name)) == Ok((name, zone))
  {
    SplitInstanceUrl(project, zone, name);
  }

  /** Names built by the scalers carry no '/'. */
  lemma InstanceNameNoSlash(group: string, index: nat)
    requires NoSlash(group)
    ensures NoSlash(InstanceName(group, index))
  {
    Text.ZeroPad3Parses(index);
    var n := InstanceName(group, index);
    forall i | 0 <= i < |n|
      ensures n[i] != '/'
    {
      if i > |group| {
        assert n[i] == Text.ZeroPad3(index)[i - |group| - 1];
      }
    }
  }

  /** The index parsed from the URL of `<group>-<index:03d>` is that index, whatever '-' the group name holds. */
  lemma IndexOfInstanceUrl(project: Segment, zone: Segment, group: string, index: nat)
    requires NoSlash(group)
    ensures IndexOf(InstanceUrl(project, zone, InstanceName(group, index))) == Ok(index)
  {
    InstanceNameNoSlash(group, index);
    var name := InstanceName(group, index);
    SplitInstanceUrl(project, zone, name);
    Text.ZeroPad3Parses(index);
    DigitsHaveNoSeparator(Text.ZeroPad3(index), '-');
    assert name == group + ['-'] + Text.ZeroPad3(index);
    Text.SplitAppend(group, '-', Text.ZeroPad3(index));
  }

  /** Distinct indices give distinct instance names. */
  lemma InstanceNameInjective(group: string, i: nat, j: nat)
    requires InstanceName(group, i) == InstanceName(group, j)
    ensures i == j
  {
    var k := |group| + 1;
    assert InstanceName(group, i)[k..] == Text.ZeroPad3(i);
    assert InstanceName(group, j)[k..] == Text.ZeroPad3(j);
    Text.ZeroPad3Parses(i);
    Text.ZeroPad3Parses(j);
  }
}
