// The rule lists of a built runtime and what first-match routing makes of them
// (apple/Core/core.c).  The model starts from parsed rules: a value that may be
// one string or a list of strings is a list here.
module RuleOrder {
  import opened Common
  import opened DomainGroups

  const PREFIX: string := "sb-easy-apple-"
  const DIRECT: string := PREFIX + "direct"
  const DEFAULT_SELECTOR: string := PREFIX + "default"
  const BOOTSTRAP: string := PREFIX + "bootstrap"
  const REMOTE_DNS: string := PREFIX + "remote-dns"

  /** `other` stands for every field the builder does not look at. */
  datatype Rule = Rule(
    action: Option<string>, outbound: string, server: string, protocol: string,
    inbound: seq<string>, ruleSet: seq<string>, domain: Option<seq<string>>, domainSuffix: seq<string>,
    ipCidr: Option<seq<string>>, sourceIpCidr: bool, ipIsPrivate: bool, typed: bool, nested: bool, other: string)
  datatype Server = Server(tag: Option<string>, detour: Option<string>)
  datatype Outbound = Outbound(tag: Option<string>, kind: string)
  datatype Root = Root(endpoints: seq<Option<string>>, servers: seq<Server>)

  const PLAIN: Rule := Rule(None, "", "", "", [], [], None, [], None, false, false, false, false, "")
  const SNIFF: Rule := PLAIN.(action := Some("sniff"))
  const HIJACK: Rule := PLAIN.(action := Some("hijack-dns"), protocol := "dns")

  // ---- protected rules ----

  function ServerNamed(servers: seq<Server>, tag: string): Option<Server> {
    if |servers| == 0 then None
    else if servers[0].tag == Some(tag) then Some(servers[0])
    else ServerNamed(servers[1..], tag)
  }

  function Target(r: Rule, root: Root, dns: bool): string {
    if !dns then r.outbound
    else
      match ServerNamed(root.servers, r.server)
      case Some(s) => if s.detour.Some? then s.detour.value else ""
      case None => ""
  }

  predicate Protected(r: Rule, root: Root, dns: bool) {
    || (exists e :: 0 <= e < |root.endpoints| &&
          (if root.endpoints[e].Some? then root.endpoints[e].value else "") in r.inbound)
    || (exists e :: 0 <= e < |root.endpoints| && root.endpoints[e] == Some(Target(r, root, dns)))
    || (r.action.Some? && r.action.value != "route")
    || r.ipCidr.Some? || r.sourceIpCidr || r.ipIsPrivate || r.domain.Some? || r.typed || r.nested
    || "geosite-private" in r.ruleSet
  }

  /** The rules that are protected, or those that are not, in their order. */
  function Kept(rules: seq<Rule>, root: Root, dns: bool, want: bool): seq<Rule> {
    if |rules| == 0 then []
    else
      Kept(rules[..|rules| - 1], root, dns, want)
      + if Protected(rules[|rules| - 1], root, dns) == want then [rules[|rules| - 1]] else []
  }

  function Partition(rules: seq<Rule>, root: Root, dns: bool): seq<Rule> {
    Kept(rules, root, dns, true) + Kept(rules, root, dns, false)
  }

  lemma {:induction false} KeptSnoc(rules: seq<Rule>, n: nat, root: Root, dns: bool, want: bool)
    requires n < |rules|
    ensures Kept(rules[..n + 1], root, dns, want) ==
            Kept(rules[..n], root, dns, want) + if Protected(rules[n], root, dns) == want then [rules[n]] else []
  {
    hide Protected;
    assert rules[..n + 1][..n] == rules[..n];
  }

  /** The list with its i-th rule taken out and put in at `count`. */
  function Moved(out: seq<Rule>, i: nat, count: nat): seq<Rule>
    requires count <= i < |out|
  {
    var cut := out[..i] + out[i + 1..];
    cut[..count] + [out[i]] + cut[count..]
  }

  lemma {:induction false} MoveUp(a: seq<Rule>, b: seq<Rule>, r: Rule, c: seq<Rule>)
    ensures Moved(a + b + ([r] + c), |a| + |b|, |a|) == (a + [r]) + b + c
  {
    var out := a + b + ([r] + c);
    assert out[..|a| + |b|] == a + b && out[|a| + |b| + 1..] == c;
    assert (a + b + c)[..|a|] == a && (a + b + c)[|a|..] == b + c;
  }

  /** Taking each protected rule out and putting it behind the ones found before is a stable partition. */
  method ProtectPrefix(rules: seq<Rule>, root: Root, dns: bool) returns (out: seq<Rule>, count: nat)
    ensures out == Partition(rules, root, dns) && count == |Kept(rules, root, dns, true)|
  {
    hide Protected, Kept, Moved, Sofar;
    out, count := rules, 0;
    Ends(rules, root, dns);
    for i := 0 to |rules|
      invariant out == Sofar(rules, root, dns, i) && |out| == |rules|
      invariant count == |Kept(rules[..i], root, dns, true)| <= i
    {
      OneRule(rules, root, dns, i);
      if Protected(out[i], root, dns) {
        out := Moved(out, i, count);
        count := count + 1;
      }
    }
  }

  /** The list after the first i rules were looked at. */
  function Sofar(rules: seq<Rule>, root: Root, dns: bool, i: nat): seq<Rule>
    requires i <= |rules|
  {
    Kept(rules[..i], root, dns, true) + Kept(rules[..i], root, dns, false) + rules[i..]
  }

  lemma {:induction false} KeptSizes(rules: seq<Rule>, root: Root, dns: bool)
    ensures |Kept(rules, root, dns, true)| + |Kept(rules, root, dns, false)| == |rules|
  {
    hide Protected;
    if |rules| == 0 {
    } else {
      KeptSizes(rules[..|rules| - 1], root, dns);
    }
  }

  lemma {:induction false} Ends(rules: seq<Rule>, root: Root, dns: bool)
    ensures Sofar(rules, root, dns, 0) == rules && Sofar(rules, root, dns, |rules|) == Partition(rules, root, dns)
    ensures |Kept(rules[..0], root, dns, true)| == 0 && rules[..|rules|] == rules
  {
    hide Protected, Kept;
    KeptOfNone(root, dns);
    assert rules[..0] == [] && rules[..|rules|] == rules && rules[|rules|..] == [];
  }

  lemma {:induction false} OneRule(rules: seq<Rule>, root: Root, dns: bool, i: nat)
    requires i < |rules|
    ensures var a, out := Kept(rules[..i], root, dns, true), Sofar(rules, root, dns, i);
            && |a| <= i < |out| == |rules| == |Sofar(rules, root, dns, i + 1)| && out[i] == rules[i]
            && (if Protected(rules[i], root, dns)
                then Sofar(rules, root, dns, i + 1) == Moved(out, i, |a|)
                    && |Kept(rules[..i + 1], root, dns, true)| == |a| + 1
                else Sofar(rules, root, dns, i + 1) == out && |Kept(rules[..i + 1], root, dns, true)| == |a|)
  {
    hide Protected, Kept, Moved;
    var a, b, r, c := Kept(rules[..i], root, dns, true), Kept(rules[..i], root, dns, false), rules[i], rules[i + 1..];
    KeptSizes(rules[..i], root, dns);
    KeptSizes(rules[..i + 1], root, dns);
    KeptSnoc(rules, i, root, dns, true);
    KeptSnoc(rules, i, root, dns, false);
    assert rules[i..] == [r] + c;
    if Protected(r, root, dns) {
      MoveUp(a, b, r, c);
    } else {
      assert a + b + ([r] + c) == a + (b + [r]) + c;
    }
  }

  lemma {:induction false} KeptOfNone(root: Root, dns: bool)
    ensures Kept([], root, dns, true) == [] && Kept([], root, dns, false) == []
  {
  }

  /** The places of the rules of one kind. */
  function Places(rules: seq<Rule>, root: Root, dns: bool, want: bool): seq<nat> {
    if |rules| == 0 then []
    else
      Places(rules[..|rules| - 1], root, dns, want)
      + if Protected(rules[|rules| - 1], root, dns) == want then [|rules| - 1] else []
  }

  /** Kept is the whole subsequence: increasing places, all of the wanted kind, and none left out. */
  lemma {:induction false} KeptIsSubsequence(rules: seq<Rule>, root: Root, dns: bool, want: bool)
    ensures var places, kept := Places(rules, root, dns, want), Kept(rules, root, dns, want);
            && |places| == |kept|
            && (forall k :: 0 <= k < |places| ==> places[k] < |rules| && kept[k] == rules[places[k]])
            && (forall k, l :: 0 <= k < l < |places| ==> places[k] < places[l])
  {
    hide Protected;
    if |rules| == 0 {
    } else {
      KeptIsSubsequence(rules[..|rules| - 1], root, dns, want);
    }
  }

  lemma {:induction false} NonePassedOver(rules: seq<Rule>, root: Root, dns: bool, want: bool, i: nat)
    requires i < |rules|
    ensures i in Places(rules, root, dns, want) <==> Protected(rules[i], root, dns) == want
  {
    hide Protected;
    var n := |rules| - 1;
    if i < n {
      NonePassedOver(rules[..n], root, dns, want, i);
    } else {
      KeptIsSubsequence(rules[..n], root, dns, want);
    }
  }

  lemma {:induction false} OneMore(rules: seq<Rule>, r: Rule)
    ensures multiset(rules + [r]) == multiset(rules) + multiset{r}
  {
  }

  lemma {:induction false} BothKept(rules: seq<Rule>, root: Root, dns: bool)
    ensures multiset(Kept(rules, root, dns, true)) + multiset(Kept(rules, root, dns, false)) == multiset(rules)
  {
    hide Protected;
    if |rules| == 0 {
    } else {
      var n := |rules| - 1;
      var want := Protected(rules[n], root, dns);
      BothKept(rules[..n], root, dns);
      OneMore(rules[..n], rules[n]);
      OneMore(Kept(rules[..n], root, dns, want), rules[n]);
      assert rules == rules[..n] + [rules[n]];
    }
  }

  lemma {:induction false} NothingLost(rules: seq<Rule>, root: Root, dns: bool)
    ensures multiset(Partition(rules, root, dns)) == multiset(rules)
  {
    hide Kept;
    BothKept(rules, root, dns);
  }

  lemma {:induction false} KeptAre(rules: seq<Rule>, root: Root, dns: bool, want: bool)
    ensures forall k :: 0 <= k < |Kept(rules, root, dns, want)| ==>
            Protected(Kept(rules, root, dns, want)[k], root, dns) == want
  {
    hide Protected;
    if |rules| == 0 {
    } else {
      KeptAre(rules[..|rules| - 1], root, dns, want);
    }
  }

  lemma {:induction false} KeptAgain(rules: seq<Rule>, root: Root, dns: bool, want: bool)
    requires forall k :: 0 <= k < |rules| ==> Protected(rules[k], root, dns) == want
    ensures Kept(rules, root, dns, want) == rules && Kept(rules, root, dns, !want) == []
  {
    hide Protected;
    if |rules| == 0 {
    } else {
      KeptAgain(rules[..|rules| - 1], root, dns, want);
      assert rules[..|rules| - 1] + [rules[|rules| - 1]] == rules;
    }
  }

  lemma {:induction false} KeptConcat(a: seq<Rule>, b: seq<Rule>, root: Root, dns: bool, want: bool)
    ensures Kept(a + b, root, dns, want) == Kept(a, root, dns, want) + Kept(b, root, dns, want)
  {
    hide Protected;
    if |b| == 0 {
      assert a + b == a;
    } else {
      var n := |b| - 1;
      KeptConcat(a, b[..n], root, dns, want);
      assert (a + b)[..|a + b| - 1] == a + b[..n];
    }
  }

  /** Partitioning a partitioned list changes nothing. */
  lemma {:induction false} PartitionSettles(rules: seq<Rule>, root: Root, dns: bool)
    ensures Partition(Partition(rules, root, dns), root, dns) == Partition(rules, root, dns)
  {
    hide Protected, Kept;
    var a, b := Kept(rules, root, dns, true), Kept(rules, root, dns, false);
    KeptAre(rules, root, dns, true);
    KeptAre(rules, root, dns, false);
    KeptAgain(a, root, dns, true);
    KeptAgain(b, root, dns, false);
    KeptConcat(a, b, root, dns, true);
    KeptConcat(a, b, root, dns, false);
  }

  /** The rules the builder adds for the control host count as protected wherever they are met again. */
  lemma {:induction false} ControlIsProtected(c: Control, root: Root)
    ensures Protected(ControlRoute(c), root, false)
    ensures forall k :: 0 <= k < |ControlDns(c)| ==> Protected(ControlDns(c)[k], root, true)
    ensures Protected(SNIFF, root, false) && Protected(HIJACK, root, false)
  {
  }

  // ---- groups ----

  function GroupTag(g: Group): string { PREFIX + "group-" + g.id }
  function GroupRoute(g: Group): Rule { PLAIN.(domainSuffix := g.domains, outbound := g.outbound) }
  function GroupDns(g: Group): Rule { PLAIN.(domainSuffix := g.domains, server := GroupTag(g)) }

  function OutboundNamed(outbounds: seq<Outbound>, tag: string): Option<Outbound> {
    if |outbounds| == 0 then None
    else if outbounds[0].tag == Some(tag) then Some(outbounds[0])
    else OutboundNamed(outbounds[1..], tag)
  }

  /** A resolver that dials through an outbound; the direct one needs no detour. */
  function DnsServer(tag: string, detour: Option<string>): Server {
    Server(Some(tag), if detour == Some(DIRECT) then None else detour)
  }

  predicate Usable(g: Group, outbounds: seq<Outbound>) {
    var o := OutboundNamed(outbounds, g.outbound);
    o.Some? && o.value.kind != "selector" && o.value.kind != "urltest"
  }

  function GroupServer(g: Group, outbounds: seq<Outbound>): Server {
    var o := OutboundNamed(outbounds, g.outbound);
    DnsServer(GroupTag(g), if o.Some? && o.value.kind == "direct" then None else Some(g.outbound))
  }

  function Routes(groups: seq<Group>): seq<Rule> {
    seq(|groups|, i requires 0 <= i < |groups| => GroupRoute(groups[i]))
  }

  function DnsRules(groups: seq<Group>): seq<Rule> {
    seq(|groups|, i requires 0 <= i < |groups| => GroupDns(groups[i]))
  }

  /** One resolver per group, in the order they are pushed: last group first. */
  function Servers(groups: seq<Group>, outbounds: seq<Outbound>): seq<Server> {
    if |groups| == 0 then [] else Servers(groups[1..], outbounds) + [GroupServer(groups[0], outbounds)]
  }

  /** From the last group to the first, each put in front of the ones already in. */
  method InsertGroups(rules: seq<Rule>, dnsRules: seq<Rule>, servers: seq<Server>, at: nat, dnsAt: nat,
                      groups: seq<Group>, outbounds: seq<Outbound>)
    returns (ok: bool, rules': seq<Rule>, dnsRules': seq<Rule>, servers': seq<Server>)
    requires at <= |rules| && dnsAt <= |dnsRules|
    ensures ok <==> forall i :: 0 <= i < |groups| ==> Usable(groups[i], outbounds)
    ensures ok ==> rules' == rules[..at] + Routes(groups) + rules[at..]
    ensures ok ==> dnsRules' == dnsRules[..dnsAt] + DnsRules(groups) + dnsRules[dnsAt..]
    ensures ok ==> servers' == servers + Servers(groups, outbounds)
  {
    hide GroupRoute, GroupDns, GroupServer, Usable;
    rules', dnsRules', servers' := rules, dnsRules, servers;
    var i := |groups|;
    assert groups[i..] == [];
    assert rules == rules[..at] + Routes([]) + rules[at..]
           && dnsRules == dnsRules[..dnsAt] + DnsRules([]) + dnsRules[dnsAt..];
    while i > 0
      invariant 0 <= i <= |groups|
      invariant forall k :: i <= k < |groups| ==> Usable(groups[k], outbounds)
      invariant rules' == rules[..at] + Routes(groups[i..]) + rules[at..]
      invariant dnsRules' == dnsRules[..dnsAt] + DnsRules(groups[i..]) + dnsRules[dnsAt..]
      invariant servers' == servers + Servers(groups[i..], outbounds)
    {
      var g := groups[i - 1];
      if !Usable(g, outbounds) {
        return false, rules', dnsRules', servers';
      }
      assert groups[i - 1..][1..] == groups[i..] && groups[i - 1..][0] == g;
      assert Routes(groups[i - 1..]) == [GroupRoute(g)] + Routes(groups[i..]);
      assert DnsRules(groups[i - 1..]) == [GroupDns(g)] + DnsRules(groups[i..]);
      InsertAt(rules[..at], GroupRoute(g), Routes(groups[i..]), rules[at..]);
      InsertAt(dnsRules[..dnsAt], GroupDns(g), DnsRules(groups[i..]), dnsRules[dnsAt..]);
      rules' := rules'[..at] + [GroupRoute(g)] + rules'[at..];
      servers' := servers' + [GroupServer(g, outbounds)];
      dnsRules' := dnsRules'[..dnsAt] + [GroupDns(g)] + dnsRules'[dnsAt..];
      i := i - 1;
    }
    assert groups[0..] == groups;
    ok := true;
  }

  lemma {:induction false} InsertAt(a: seq<Rule>, r: Rule, b: seq<Rule>, c: seq<Rule>)
    ensures var all := a + b + c;
            all[..|a|] + [r] + all[|a|..] == a + ([r] + b) + c
  {
    var all := a + b + c;
    assert all[..|a|] == a && all[|a|..] == b + c;
  }

  // ---- the control host, and the whole lists ----

  datatype Control = Address(cidr: string) | Host(name: string)

  function ControlRoute(c: Control): Rule {
    match c
    case Address(cidr) => PLAIN.(ipCidr := Some([cidr]), outbound := DIRECT)
    case Host(name) => PLAIN.(domain := Some([name]), outbound := DIRECT)
  }

  function ControlDns(c: Control): seq<Rule> {
    match c
    case Address(_) => []
    case Host(name) => [PLAIN.(domain := Some([name]), server := BOOTSTRAP)]
  }

  function ControlRoutes(c: Option<Control>): seq<Rule> { if c.Some? then [ControlRoute(c.value)] else [] }
  function ControlDnsRules(c: Option<Control>): seq<Rule> { if c.Some? then ControlDns(c.value) else [] }

  function FinalRoutes(rules: seq<Rule>, root: Root, groups: seq<Group>, control: Option<Control>): seq<Rule> {
    [SNIFF, HIJACK] + ControlRoutes(control) + Kept(rules, root, false, true) + Routes(groups)
        + Kept(rules, root, false, false)
  }

  function FinalDns(rules: seq<Rule>, root: Root, groups: seq<Group>, control: Option<Control>): seq<Rule> {
    ControlDnsRules(control) + Kept(rules, root, true, true) + DnsRules(groups) + Kept(rules, root, true, false)
  }

  method BuildRules(rules: seq<Rule>, dnsRules: seq<Rule>, root: Root, groups: seq<Group>, outbounds: seq<Outbound>,
                    control: Option<Control>)
    returns (ok: bool, routes: seq<Rule>, dns: seq<Rule>, servers: seq<Server>)
    ensures ok <==> forall i :: 0 <= i < |groups| ==> Usable(groups[i], outbounds)
    ensures ok ==>
            routes == FinalRoutes(rules, root, groups, control) && dns == FinalDns(dnsRules, root, groups, control)
    ensures ok ==> servers == root.servers + Servers(groups, outbounds)
  {
    hide Protected, Kept, GroupRoute, GroupDns, GroupServer, Usable, Servers, ControlRoute, ControlDns;
    var at, dnsAt;
    routes, at := ProtectPrefix(rules, root, false);
    dns, dnsAt := ProtectPrefix(dnsRules, root, true);
    assert routes[..at] == Kept(rules, root, false, true) && routes[at..] == Kept(rules, root, false, false);
    assert dns[..dnsAt] == Kept(dnsRules, root, true, true) && dns[dnsAt..] == Kept(dnsRules, root, true, false);
    ok, routes, dns, servers := InsertGroups(routes, dns, root.servers, at, dnsAt, groups, outbounds);
    if !ok {
      return;
    }
    if control.Some? {
      routes := [ControlRoute(control.value)] + routes;
      dns := ControlDns(control.value) + dns;
    }
    routes := [HIJACK] + routes;
    routes := [SNIFF] + routes;
  }

  // ---- first match ----

  /** Sniffing goes on to the next rule; every other action is final. */
  predicate Final(r: Rule) { r.action != Some("sniff") }

  function Decide(rules: seq<Rule>, hits: Rule -> bool): Option<Rule> {
    if |rules| == 0 then None
    else if hits(rules[0]) && Final(rules[0]) then Some(rules[0])
    else Decide(rules[1..], hits)
  }

  lemma {:induction false} DecideSkips(a: seq<Rule>, b: seq<Rule>, hits: Rule -> bool)
    requires forall i :: 0 <= i < |a| ==> !(hits(a[i]) && Final(a[i]))
    ensures Decide(a + b, hits) == Decide(b, hits)
    decreases |a|
  {
    if |a| == 0 {
      assert a + b == b;
    } else {
      assert (a + b)[1..] == a[1..] + b;
      DecideSkips(a[1..], b, hits);
    }
  }

  /** A query as the rules see it: group rules hit exactly the names of their group. */
  ghost predicate Sees(hits: Rule -> bool, name: string, groups: seq<Group>) {
    forall i :: 0 <= i < |groups| ==>
      && (hits(GroupRoute(groups[i])) <==> InGroup(groups[i], name))
      && (hits(GroupDns(groups[i])) <==> InGroup(groups[i], name))
  }

  ghost predicate NoneHit(rules: seq<Rule>, hits: Rule -> bool) {
    forall i :: 0 <= i < |rules| ==> !hits(rules[i])
  }

  lemma {:induction false} FirstGroup(own: seq<Rule>, rest: seq<Rule>, i: nat, hits: Rule -> bool)
    requires i < |own| && hits(own[i]) && Final(own[i])
    requires forall j :: 0 <= j < i ==> !hits(own[j])
    ensures Decide(own + rest, hits) == Some(own[i])
  {
    DecideSkips(own[..i], own[i..] + rest, hits);
    assert own[..i] + (own[i..] + rest) == own + rest;
    assert (own[i..] + rest)[0] == own[i];
  }

  /** A name of a group that no protected rule hits leaves by the group's exit. */
  lemma {:induction false} GroupNameExits(rules: seq<Rule>, root: Root, groups: seq<Group>, control: Option<Control>,
                                          name: string, i: nat, hits: Rule -> bool)
    requires GroupsOk(groups) && Sees(hits, name, groups) && i < |groups| && InGroup(groups[i], name)
    requires !hits(HIJACK) && NoneHit(ControlRoutes(control) + Kept(rules, root, false, true), hits)
    ensures Decide(FinalRoutes(rules, root, groups, control), hits) == Some(GroupRoute(groups[i]))
    ensures GroupRoute(groups[i]).outbound == groups[i].outbound
  {
    hide Protected, Kept, GroupsOk, InGroup;
    var front := ControlRoutes(control) + Kept(rules, root, false, true);
    var own, rest := Routes(groups), Kept(rules, root, false, false);
    assert FinalRoutes(rules, root, groups, control) == ([SNIFF, HIJACK] + front) + (own + rest);
    DecideSkips([SNIFF, HIJACK] + front, own + rest, hits);
    forall j | 0 <= j < i
      ensures !hits(own[j])
    {
      if InGroup(groups[j], name) {
        AtMostOneGroup(groups, i, j, name);
      }
    }
    FirstGroup(own, rest, i, hits);
  }

  /** Its DNS query, if no protected DNS rule hits it, goes to the group's own resolver. */
  lemma {:induction false} GroupNameResolves(rules: seq<Rule>, root: Root, groups: seq<Group>, control: Option<Control>,
                                             name: string, i: nat, hits: Rule -> bool)
    requires GroupsOk(groups) && Sees(hits, name, groups) && i < |groups| && InGroup(groups[i], name)
    requires NoneHit(ControlDnsRules(control) + Kept(rules, root, true, true), hits)
    ensures Decide(FinalDns(rules, root, groups, control), hits) == Some(GroupDns(groups[i]))
    ensures GroupDns(groups[i]).server == GroupTag(groups[i])
  {
    hide Protected, Kept, GroupsOk, InGroup;
    var front := ControlDnsRules(control) + Kept(rules, root, true, true);
    var own, rest := DnsRules(groups), Kept(rules, root, true, false);
    assert FinalDns(rules, root, groups, control) == front + (own + rest);
    DecideSkips(front, own + rest, hits);
    forall j | 0 <= j < i
      ensures !hits(own[j])
    {
      if InGroup(groups[j], name) {
        AtMostOneGroup(groups, i, j, name);
      }
    }
    FirstGroup(own, rest, i, hits);
  }

  /** A name of no group is routed as if there were no groups. */
  lemma {:induction false} OtherNamesUndisturbed(rules: seq<Rule>, root: Root, groups: seq<Group>,
                                                 control: Option<Control>, name: string, hits: Rule -> bool)
    requires Sees(hits, name, groups) && forall i :: 0 <= i < |groups| ==> !InGroup(groups[i], name)
    ensures Decide(FinalRoutes(rules, root, groups, control), hits) ==
            Decide(FinalRoutes(rules, root, [], control), hits)
  {
    hide Protected, Kept, InGroup;
    var front := [SNIFF, HIJACK] + ControlRoutes(control) + Kept(rules, root, false, true);
    var rest := Kept(rules, root, false, false);
    assert FinalRoutes(rules, root, groups, control) == front + (Routes(groups) + rest);
    assert FinalRoutes(rules, root, [], control) == front + rest;
    SameFront(front, Routes(groups), rest, hits);
  }

  lemma {:induction false} SameFront(front: seq<Rule>, own: seq<Rule>, rest: seq<Rule>, hits: Rule -> bool)
    requires NoneHit(own, hits)
    ensures Decide(front + (own + rest), hits) == Decide(front + rest, hits)
    decreases |front|
  {
    if |front| == 0 {
      assert front + (own + rest) == own + rest && front + rest == rest;
      DecideSkips(own, rest, hits);
    } else {
      assert (front + (own + rest))[1..] == front[1..] + (own + rest);
      assert (front + rest)[1..] == front[1..] + rest;
      SameFront(front[1..], own, rest, hits);
    }
  }

  // ---- resolvers ----

  predicate Reserved(tag: string) { PREFIX <= tag }

  lemma {:induction false} TagsDiffer(g: Group, h: Group)
    requires GroupTag(g) == GroupTag(h)
    ensures g.id == h.id
  {
    var k := |PREFIX + "group-"|;
    assert GroupTag(g)[k..] == g.id && GroupTag(h)[k..] == h.id;
  }

  lemma {:induction false} NotAnother(servers: seq<Server>, more: seq<Server>, tag: string)
    requires forall k :: 0 <= k < |servers| ==> servers[k].tag != Some(tag)
    ensures ServerNamed(servers + more, tag) == ServerNamed(more, tag)
    decreases |servers|
  {
    if |servers| == 0 {
      assert servers + more == more;
    } else {
      assert (servers + more)[1..] == servers[1..] + more;
      NotAnother(servers[1..], more, tag);
    }
  }

  lemma {:induction false} FoundFirst(servers: seq<Server>, more: seq<Server>, tag: string)
    requires ServerNamed(servers, tag).Some?
    ensures ServerNamed(servers + more, tag) == ServerNamed(servers, tag)
    decreases |servers|
  {
    assert (servers + more)[0] == servers[0] && (servers + more)[1..] == servers[1..] + more;
    if servers[0].tag != Some(tag) {
      FoundFirst(servers[1..], more, tag);
    }
  }

  ghost predicate FromGroup(groups: seq<Group>, outbounds: seq<Outbound>, s: Server) {
    exists j :: 0 <= j < |groups| && s == GroupServer(groups[j], outbounds)
  }

  lemma {:induction false} ServersAre(groups: seq<Group>, outbounds: seq<Outbound>)
    ensures forall k :: 0 <= k < |Servers(groups, outbounds)| ==>
            FromGroup(groups, outbounds, Servers(groups, outbounds)[k])
  {
    hide GroupServer;
    if |groups| == 0 {
    } else {
      var rest := groups[1..];
      ServersAre(rest, outbounds);
      var s := Servers(groups, outbounds);
      forall k | 0 <= k < |s|
        ensures FromGroup(groups, outbounds, s[k])
      {
        if k < |s| - 1 {
          assert FromGroup(rest, outbounds, Servers(rest, outbounds)[k]);
          var j :| 0 <= j < |rest| && s[k] == GroupServer(rest[j], outbounds);
          assert s[k] == GroupServer(groups[j + 1], outbounds);
        } else {
          assert s[k] == GroupServer(groups[0], outbounds);
        }
      }
    }
  }

  lemma {:induction false} OwnServer(groups: seq<Group>, outbounds: seq<Outbound>, i: nat)
    requires i < |groups| && forall j, k :: 0 <= j < k < |groups| ==> groups[j].id != groups[k].id
    ensures ServerNamed(Servers(groups, outbounds), GroupTag(groups[i])) == Some(GroupServer(groups[i], outbounds))
    decreases |groups|
  {
    hide GroupTag, ServerNamed;
    var rest := Servers(groups[1..], outbounds);
    if i > 0 {
      OwnServer(groups[1..], outbounds, i - 1);
      FoundFirst(rest, [GroupServer(groups[0], outbounds)], GroupTag(groups[i]));
    } else {
      ServersAre(groups[1..], outbounds);
      forall k | 0 <= k < |rest|
        ensures rest[k].tag != Some(GroupTag(groups[0]))
      {
        assert FromGroup(groups[1..], outbounds, rest[k]);
        var j :| 0 <= j < |groups[1..]| && rest[k] == GroupServer(groups[1..][j], outbounds);
        if GroupTag(groups[j + 1]) == GroupTag(groups[0]) {
          TagsDiffer(groups[j + 1], groups[0]);
        }
      }
      NotAnother(rest, [GroupServer(groups[0], outbounds)], GroupTag(groups[0]));
      OnlyServer(GroupServer(groups[0], outbounds), GroupTag(groups[0]));
    }
  }

  lemma {:induction false} OnlyServer(s: Server, tag: string)
    requires s.tag == Some(tag)
    ensures ServerNamed([s], tag) == Some(s)
  {
  }

  /** The resolvers before the groups' own: the configured ones, none with a reserved tag, and two fixed ones. */
  predicate BaseServers(configured: seq<Server>, root: Root, managed: bool) {
    && (forall k :: 0 <= k < |configured| ==> !(configured[k].tag.Some? && Reserved(configured[k].tag.value)))
    && root.servers == configured + [DnsServer(BOOTSTRAP, Some(DIRECT))]
                       + if managed then [] else [DnsServer(REMOTE_DNS, Some(DEFAULT_SELECTOR))]
  }

  /** The group's resolver dials through the exit its traffic takes; an outbound of type direct needs no detour. */
  lemma {:induction false} GroupDnsSameExit(configured: seq<Server>, root: Root, managed: bool, groups: seq<Group>,
                                            outbounds: seq<Outbound>, i: nat)
    requires BaseServers(configured, root, managed) && GroupsOk(groups) && i < |groups|
    requires Usable(groups[i], outbounds) && OutboundNamed(outbounds, DIRECT) == Some(Outbound(Some(DIRECT), "direct"))
    ensures var s := ServerNamed(root.servers + Servers(groups, outbounds), GroupTag(groups[i]));
            && s.Some?
            && s.value.detour == if OutboundNamed(outbounds, groups[i].outbound).value.kind == "direct" then None
                                 else Some(groups[i].outbound)
  {
    hide OutboundNamed, Disjoint, DomainOk, GroupShape;
    var tag := GroupTag(groups[i]);
    forall k | 0 <= k < |root.servers|
      ensures root.servers[k].tag != Some(tag)
    {
      ReservedTags(groups[i]);
    }
    NotAnother(root.servers, Servers(groups, outbounds), tag);
    OwnServer(groups, outbounds, i);
  }

  lemma {:induction false} ReservedTags(g: Group)
    ensures Reserved(GroupTag(g)) && GroupTag(g) != BOOTSTRAP && GroupTag(g) != REMOTE_DNS
  {
    var k := |PREFIX|;
    assert GroupTag(g)[k] == 'g' && BOOTSTRAP[k] == 'b' && REMOTE_DNS[k] == 'r';
  }
}
