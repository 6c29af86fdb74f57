// Domain suffixes and the local groups built from them (apple/Core/core.c).
module DomainGroups {
  /** What a suffix rule matches: the name itself and everything below it. */
  predicate SuffixMatch(name: string, suffix: string) {
    || name == suffix
    || (|name| > |suffix| && name[|name| - |suffix| - 1] == '.' && name[|name| - |suffix|..] == suffix)
  }

  predicate DomainOverlap(a: string, b: string) {
    || a == b
    || (|a| > |b| && a[|a| - |b| - 1] == '.' && a[|a| - |b|..] == b)
    || (|b| > |a| && b[|b| - |a| - 1] == '.' && b[|b| - |a|..] == a)
  }

  /** Two suffixes of one name: the shorter is a suffix of the longer, at a dot. */
  lemma {:induction false} BothMatch(name: string, a: string, b: string)
    requires SuffixMatch(name, a) && SuffixMatch(name, b) && |a| >= |b|
    ensures DomainOverlap(a, b)
  {
    var n := |name|;
    assert a == name[n - |a|..] && b == name[n - |b|..];
    if |a| == |b| {
      assert a == b;
    } else {
      assert a[|a| - |b|..] == name[n - |b|..];
      assert a[|a| - |b| - 1] == name[n - |b| - 1];
    }
  }

  /** The test is exact: suffixes overlap if and only if some name is matched by both. */
  lemma {:induction false} OverlapIsCommonName(a: string, b: string)
    ensures DomainOverlap(a, b) <==> exists name :: SuffixMatch(name, a) && SuffixMatch(name, b)
  {
    if DomainOverlap(a, b) {
      var name := if |a| >= |b| then a else b;
      assert SuffixMatch(name, a) && SuffixMatch(name, b);
    }
    forall name | SuffixMatch(name, a) && SuffixMatch(name, b)
      ensures DomainOverlap(a, b)
    {
      if |a| >= |b| {
        BothMatch(name, a, b);
      } else {
        BothMatch(name, b, a);
      }
    }
  }

  // ---- valid names ----

  predicate LabelChar(c: char) { 'a' <= c <= 'z' || '0' <= c <= '9' || c == '-' }

  /** name[i..j] is a label: it lies between dots or ends and holds no dot. */
  predicate IsLabel(name: string, i: int, j: int) {
    && 0 <= i <= j <= |name|
    && (i == 0 || name[i - 1] == '.') && (j == |name| || name[j] == '.')
    && forall k :: i <= k < j ==> name[k] != '.'
  }

  predicate LabelOk(name: string, i: int, j: int) {
    0 <= i < j <= |name| && j - i <= 63 && name[i] != '-' && name[j - 1] != '-'
  }

  predicate NameShape(name: string) {
    && 1 <= |name| <= 253 && '.' in name
    && (exists k :: 0 <= k < |name| && !('0' <= name[k] <= '9' || name[k] == '.'))
  }

  ghost predicate DomainOk(name: string) {
    && NameShape(name)
    && (forall k :: 0 <= k < |name| ==> name[k] == '.' || LabelChar(name[k]))
    && (forall i, j :: IsLabel(name, i, j) ==> LabelOk(name, i, j))
  }

  lemma {:induction false} SameLabel(name: string, i: int, j: int, start: int)
    requires IsLabel(name, i, j) && IsLabel(name, start, j)
    ensures i == start
  {
  }

  method CheckDomain(name: string) returns (ok: bool)
    ensures ok <==> DomainOk(name)
  {
    if !NameShape(name) {
      return false;
    }
    var start, p := 0, 0;
    while true
      invariant 0 <= start <= p <= |name| && (start == 0 || name[start - 1] == '.')
      invariant forall k :: start <= k < p ==> name[k] != '.'
      invariant forall k :: 0 <= k < p ==> name[k] == '.' || LabelChar(name[k])
      invariant forall i, j :: IsLabel(name, i, j) && j < start ==> LabelOk(name, i, j)
      decreases |name| - p
    {
      if p < |name| && name[p] != '.' {
        if !LabelChar(name[p]) {
          return false;
        }
        p := p + 1;
      } else {
        assert IsLabel(name, start, p);
        if p == start || p - start > 63 || name[start] == '-' || name[p - 1] == '-' {
          return false;
        }
        forall i, j | IsLabel(name, i, j) && j <= p
          ensures LabelOk(name, i, j)
        {
          if j == p {
            SameLabel(name, i, j, start);
          }
        }
        if p == |name| {
          break;
        }
        start := p + 1;
        p := p + 1;
      }
    }
    ok := true;
  }

  // ---- groups ----

  datatype Group = Group(id: string, name: string, outbound: string, domains: seq<string>)

  predicate GroupIdOk(id: string) { 1 <= |id| <= 48 && forall k :: 0 <= k < |id| ==> LabelChar(id[k]) }

  predicate TextOk(s: string, max: nat) {
    1 <= |s| <= max && forall k :: 0 <= k < |s| ==> s[k] >= ' ' && s[k] != 127 as char
  }

  predicate GroupShape(g: Group) {
    GroupIdOk(g.id) && TextOk(g.name, 128) && TextOk(g.outbound, 512) && 1 <= |g.domains| <= 256
  }

  function AllDomains(groups: seq<Group>): seq<string> {
    if |groups| == 0 then [] else AllDomains(groups[..|groups| - 1]) + groups[|groups| - 1].domains
  }

  predicate Disjoint(domains: seq<string>) {
    forall i, j :: 0 <= i < j < |domains| ==> !DomainOverlap(domains[i], domains[j])
  }

  ghost predicate GroupsOk(groups: seq<Group>) {
    && (forall i :: 0 <= i < |groups| ==> GroupShape(groups[i]))
    && (forall i, j :: 0 <= i < j < |groups| ==> groups[i].id != groups[j].id)
    && (forall k :: 0 <= k < |AllDomains(groups)| ==> DomainOk(AllDomains(groups)[k]))
    && Disjoint(AllDomains(groups))
  }

  lemma {:induction false} DomainAt(groups: seq<Group>, i: nat, k: nat)
    requires i < |groups| && k < |groups[i].domains|
    ensures |AllDomains(groups[..i])| + k < |AllDomains(groups)|
    ensures AllDomains(groups)[|AllDomains(groups[..i])| + k] == groups[i].domains[k]
  {
    var n := |groups| - 1;
    if i >= n {
    } else {
      DomainAt(groups[..n], i, k);
      assert groups[..n][..i] == groups[..i];
    }
  }

  lemma {:induction false} EarlierGroupsAreShorter(groups: seq<Group>, i: nat, j: nat)
    requires i < j <= |groups|
    ensures |AllDomains(groups[..i])| + |groups[i].domains| <= |AllDomains(groups[..j])|
  {
    assert groups[..j][..j - 1] == groups[..j - 1];
    if i < j - 1 {
      EarlierGroupsAreShorter(groups, i, j - 1);
    } else {
      assert groups[..j][..i] == groups[..i];
    }
  }

  ghost predicate InGroup(g: Group, name: string) {
    exists k :: 0 <= k < |g.domains| && SuffixMatch(name, g.domains[k])
  }

  /** No name belongs to two groups. */
  lemma {:induction false} AtMostOneGroup(groups: seq<Group>, i: nat, j: nat, name: string)
    requires GroupsOk(groups) && i < |groups| && j < |groups|
    requires InGroup(groups[i], name) && InGroup(groups[j], name)
    ensures i == j
  {
    var k :| 0 <= k < |groups[i].domains| && SuffixMatch(name, groups[i].domains[k]);
    var l :| 0 <= l < |groups[j].domains| && SuffixMatch(name, groups[j].domains[l]);
    DomainAt(groups, i, k);
    DomainAt(groups, j, l);
    OverlapIsCommonName(groups[i].domains[k], groups[j].domains[l]);
    OverlapIsCommonName(groups[j].domains[l], groups[i].domains[k]);
    if i < j {
      EarlierGroupsAreShorter(groups, i, j);
      assert false;
    } else if j < i {
      EarlierGroupsAreShorter(groups, j, i);
      assert false;
    }
  }

  lemma {:induction false} AllDomainsSnoc(groups: seq<Group>, n: nat)
    requires n < |groups|
    ensures AllDomains(groups[..n + 1]) == AllDomains(groups[..n]) + groups[n].domains
  {
    assert groups[..n + 1][..n] == groups[..n];
  }

  lemma {:induction false} AllDomainsPrefix(groups: seq<Group>, n: nat)
    requires n <= |groups|
    ensures AllDomains(groups[..n]) <= AllDomains(groups)
  {
    if n < |groups| {
      AllDomainsPrefix(groups[..|groups| - 1], n);
      assert groups[..|groups| - 1][..n] == groups[..n];
    } else {
      assert groups[..n] == groups;
    }
  }

  /** One more name, checked on its own and against all before it. */
  method AddDomain(domains: seq<string>, d: string) returns (ok: bool)
    ensures ok <==> DomainOk(d) && forall k :: 0 <= k < |domains| ==> !DomainOverlap(domains[k], d)
  {
    ok := CheckDomain(d);
    if !ok {
      return;
    }
    for k := 0 to |domains|
      invariant ok <==> forall j :: 0 <= j < k ==> !DomainOverlap(domains[j], d)
    {
      if DomainOverlap(domains[k], d) {
        ok := false;
      }
    }
  }

  ghost predicate DomainsOk(domains: seq<string>) {
    Disjoint(domains) && forall k :: 0 <= k < |domains| ==> DomainOk(domains[k])
  }

  lemma {:induction false} DomainsOkSnoc(domains: seq<string>, d: string)
    requires DomainsOk(domains)
    ensures DomainsOk(domains + [d]) <==>
            DomainOk(d) && forall k :: 0 <= k < |domains| ==> !DomainOverlap(domains[k], d)
  {
    hide DomainOk, DomainOverlap;
    var all := domains + [d];
    if DomainsOk(all) {
      assert DomainOk(all[|domains|]);
      forall k | 0 <= k < |domains|
        ensures !DomainOverlap(domains[k], d)
      {
        assert !DomainOverlap(all[k], all[|domains|]);
      }
    }
  }

  lemma {:induction false} DomainsOkPrefix(domains: seq<string>, all: seq<string>)
    requires domains <= all && DomainsOk(all)
    ensures DomainsOk(domains)
  {
    hide DomainOk, DomainOverlap;
  }

  method AddGroup(domains: seq<string>, g: Group) returns (ok: bool, domains': seq<string>)
    requires DomainsOk(domains)
    ensures ok <==> DomainsOk(domains + g.domains)
    ensures ok ==> domains' == domains + g.domains
  {
    hide DomainsOk;
    domains' := domains;
    assert domains + g.domains[..0] == domains;
    for j := 0 to |g.domains|
      invariant domains' == domains + g.domains[..j] && DomainsOk(domains')
    {
      ok := AddDomain(domains', g.domains[j]);
      DomainsOkSnoc(domains', g.domains[j]);
      assert domains + g.domains[..j + 1] == domains' + [g.domains[j]];
      if !ok {
        if DomainsOk(domains + g.domains) {
          assert domains + g.domains[..j + 1] <= domains + g.domains;
          DomainsOkPrefix(domains + g.domains[..j + 1], domains + g.domains);
        }
        return;
      }
      domains' := domains' + [g.domains[j]];
    }
    assert g.domains[..|g.domains|] == g.domains;
    ok := true;
  }

  const MAX_GROUPS: nat := 32

  method CheckGroups(groups: seq<Group>) returns (ok: bool)
    ensures ok <==> |groups| <= MAX_GROUPS && GroupsOk(groups)
  {
    hide DomainsOk, GroupShape, Disjoint, DomainOk;
    if |groups| > MAX_GROUPS {
      return false;
    }
    var ids: seq<string>, domains: seq<string> := [], [];
    NoDomains();
    for n := 0 to |groups|
      invariant ids == Ids(groups[..n]) && domains == AllDomains(groups[..n]) && DomainsOk(domains)
      invariant forall i :: 0 <= i < n ==> GroupShape(groups[i])
      invariant forall i, j :: 0 <= i < j < n ==> groups[i].id != groups[j].id
    {
      var g := groups[n];
      IdsAt(groups, n);
      if !GroupShape(g) || g.id in ids {
        return false;
      }
      ids := ids + [g.id];
      AllDomainsSnoc(groups, n);
      AllDomainsPrefix(groups, n + 1);
      ok, domains := AddGroup(domains, g);
      if !ok {
        NotAllOk(groups, n + 1);
        return;
      }
    }
    assert groups[..|groups|] == groups;
    ok := true;
    AllOk(groups);
  }

  /** A value of the settings object; anything that is neither text nor a list of groups is `Other`. */
  datatype Setting = Text(text: string) | GroupList(groups: seq<Group>) | Other

  const SELECTED := "selected_tag"
  const LOCAL_GROUPS := "local_groups"

  ghost predicate SettingsOk(settings: map<string, Setting>) {
    && (forall k :: k in settings ==> k == SELECTED || k == LOCAL_GROUPS)
    && (SELECTED in settings ==> var s := settings[SELECTED]; s.Text? && (s.text == "" || TextOk(s.text, 512)))
    && (LOCAL_GROUPS in settings ==>
          var s := settings[LOCAL_GROUPS]; s.GroupList? && |s.groups| <= MAX_GROUPS && GroupsOk(s.groups))
  }

  method CheckSettings(settings: map<string, Setting>) returns (ok: bool)
    ensures ok <==> SettingsOk(settings)
  {
    hide GroupsOk, TextOk;
    if SELECTED in settings {
      var s := settings[SELECTED];
      if !s.Text? || (s.text != "" && !TextOk(s.text, 512)) {
        return false;
      }
    }
    var left := settings.Keys;
    while left != {}
      invariant left <= settings.Keys
      invariant forall k :: k in settings && k !in left ==> k == SELECTED || k == LOCAL_GROUPS
    {
      var k :| k in left;
      if k != SELECTED && k != LOCAL_GROUPS {
        return false;
      }
      left := left - {k};
    }
    if LOCAL_GROUPS !in settings {
      return true;
    }
    if !settings[LOCAL_GROUPS].GroupList? {
      return false;
    }
    ok := CheckGroups(settings[LOCAL_GROUPS].groups);
  }

  lemma {:induction false} NoDomains()
    ensures DomainsOk([]) && AllDomains([]) == []
  {
  }

  lemma {:induction false} AllOk(groups: seq<Group>)
    requires DomainsOk(AllDomains(groups))
    requires forall i :: 0 <= i < |groups| ==> GroupShape(groups[i])
    requires forall i, j :: 0 <= i < j < |groups| ==> groups[i].id != groups[j].id
    ensures GroupsOk(groups)
  {
    hide DomainOk, GroupShape, DomainOverlap;
  }

  lemma {:induction false} NotAllOk(groups: seq<Group>, n: nat)
    requires n <= |groups| && !DomainsOk(AllDomains(groups[..n])) && AllDomains(groups[..n]) <= AllDomains(groups)
    ensures !GroupsOk(groups)
  {
    hide DomainOk, GroupShape, DomainOverlap;
    if DomainsOk(AllDomains(groups)) {
      DomainsOkPrefix(AllDomains(groups[..n]), AllDomains(groups));
    }
  }

  function Ids(groups: seq<Group>): seq<string> {
    if |groups| == 0 then [] else Ids(groups[..|groups| - 1]) + [groups[|groups| - 1].id]
  }

  lemma {:induction false} IdsAt(groups: seq<Group>, n: nat)
    requires n <= |groups|
    ensures |Ids(groups[..n])| == n && forall i :: 0 <= i < n ==> Ids(groups[..n])[i] == groups[i].id
    ensures n < |groups| ==> Ids(groups[..n + 1]) == Ids(groups[..n]) + [groups[n].id]
  {
    if n == 0 {
    } else {
      IdsAt(groups, n - 1);
      assert groups[..n][..n - 1] == groups[..n - 1];
    }
    if n < |groups| {
      assert groups[..n + 1][..n] == groups[..n];
    }
  }
}
