/**
 * The cluster's firewall rule (shared/lib/firewall.py, and the command-line
 * tool's copy in lib/firewall.py): `<cluster>-firewall` admits TCP on port
 * 8091 from anywhere to the Couchbase servers, and is created only when
 * reading it fails. An existing rule is never changed.
 */
module Firewall {
  import opened Common
  import opened Cloud

  const DefaultNetwork := "global/networks/default"
  const CouchbaseTag := "couchbase-server"

  function RuleName(cluster: string): string {
    cluster + "-firewall"
  }

  /** The rule `__create_firewall_rule` fills in field by field. */
  function RuleFor(name: string, network: string): (rule: FirewallRule)
    ensures rule.name == name && rule.network == network
    ensures rule.direction == "INGRESS" && rule.protocol == "tcp" && rule.ports == ["8091"]
    ensures rule.sourceRanges == ["0.0.0.0/0"] && rule.targetTags == [CouchbaseTag]
  {
    FirewallRule(name, "INGRESS", "tcp", ["8091"], ["0.0.0.0/0"], network,
      "Allowing TCP traffic on port 80 and 443 from Internet.", [CouchbaseTag])
  }

  /** `__check_firewall_rule` (and lib/firewall.py's check_firewall_rule): True exactly when reading the rule succeeds. */
  method CheckFirewallRule(p: Provider, name: string) returns (found: bool)
    modifies p
    ensures p.State() == old(p.State()).(log := old(p.log) + [GetFirewall(name)])
    ensures found <==> GetFirewall(name) !in p.faults && name in p.firewalls
  {
    var got := p.GetFirewallCall(name);
    found := got.Ok?;
  }

  /** `__create_firewall_rule`: insert the rule and wait for the operation. */
  method CreateFirewallRule(p: Provider, name: string, network: string) returns (r: Result<Unit>)
    modifies p
    ensures var req := InsertFirewall(RuleFor(name, network));
      p.log == old(p.log) + [req] &&
      (r.Ok? <==> req !in p.faults && name !in old(p.firewalls)) &&
      (r.Ok? ==> p.State() == old(p.State()).(firewalls := old(p.firewalls)[name := RuleFor(name, network)], log := p.log)) &&
      (r.Err? ==> p.State() == old(p.State()).(log := p.log))
  {
    var f := p.InsertFirewallCall(RuleFor(name, network));
    r := Wait(f);
  }

  /**
   * lib/firewall.py's create_firewall_rule: the same rule, with the older
   * wait helper, which re-raises the operation's own error.
   */
  method LegacyCreateFirewallRule(p: Provider, name: string, network: string) returns (r: Result<Unit>)
    modifies p
    ensures var req := InsertFirewall(RuleFor(name, network));
      p.log == old(p.log) + [req] &&
      (r.Ok? <==> req !in p.faults && name !in old(p.firewalls)) &&
      (r.Err? ==> r.error.ApiError?) &&
      (r.Ok? ==> p.State() == old(p.State()).(firewalls := old(p.firewalls)[name := RuleFor(name, network)], log := p.log)) &&
      (r.Err? ==> p.State() == old(p.State()).(log := p.log))
  {
    var f := p.InsertFirewallCall(RuleFor(name, network));
    r := LegacyWait(f);
  }

  /** check_firewall_rule_exists calls a helper that is not defined anywhere. */
  function CheckFirewallRuleExists(name: string): (r: Result<bool>)
    ensures r.Err? && r.error.NameError?
  {
    Err(NameError("__check_firewall_rule_exists"))
  }

  /**
   * setup_firewall: create the cluster's rule on the default network unless
   * it can be read. An existing rule is left exactly as it is.
   */
  method SetupFirewall(p: Provider, cluster: string) returns (r: Result<Unit>)
    modifies p
    ensures p.State() == old(p.State()).(firewalls := p.firewalls, log := p.log)
    ensures var name := RuleName(cluster);
      var found := GetFirewall(name) !in p.faults && name in old(p.firewalls);
      (found ==> r.Ok? && p.log == old(p.log) + [GetFirewall(name)] && p.firewalls == old(p.firewalls)) &&
      (!found ==> p.log == old(p.log) + [GetFirewall(name), InsertFirewall(RuleFor(name, DefaultNetwork))]) &&
      (!found && r.Ok? ==> p.firewalls == old(p.firewalls)[name := RuleFor(name, DefaultNetwork)])
    ensures r.Ok? ==> RuleName(cluster) in p.firewalls
    ensures RuleName(cluster) in old(p.firewalls) ==> p.firewalls == old(p.firewalls)
    ensures r.Err? ==> p.firewalls == old(p.firewalls)
  {
    var name := RuleName(cluster);
    var found := CheckFirewallRule(p, name);
    if found {
      return Ok(Unit);
    }
    r := CreateFirewallRule(p, name, DefaultNetwork);
  }

  /** cmd/update_cluster.py's setup_firewall: the same check-then-create with the older helpers. */
  method LegacySetupFirewall(p: Provider, cluster: string) returns (r: Result<Unit>)
    modifies p
    ensures p.State() == old(p.State()).(firewalls := p.firewalls, log := p.log)
    ensures var name := RuleName(cluster);
      var found := GetFirewall(name) !in p.faults && name in old(p.firewalls);
      (found ==> r.Ok? && p.log == old(p.log) + [GetFirewall(name)] && p.firewalls == old(p.firewalls)) &&
      (!found ==> p.log == old(p.log) + [GetFirewall(name), InsertFirewall(RuleFor(name, DefaultNetwork))]) &&
      (!found && r.Ok? ==> p.firewalls == old(p.firewalls)[name := RuleFor(name, DefaultNetwork)]) &&
      (r.Err? ==> r.error.ApiError?)
    ensures RuleName(cluster) in old(p.firewalls) ==> p.firewalls == old(p.firewalls)
    ensures r.Err? ==> p.firewalls == old(p.firewalls)
  {
    var name := RuleName(cluster);
    var found := CheckFirewallRule(p, name);
    if found {
      return Ok(Unit);
    }
    r := LegacyCreateFirewallRule(p, name, DefaultNetwork);
  }
}
