// Outbound tags: renaming on import, and the tags of a built runtime
// (apple/Core/core.c).  A character of a tag is one byte of its UTF-8 text.
module OutboundTags {
  import opened Common
  import opened DomainGroups
  import opened RuleOrder

  predicate Distinct(tags: seq<string>) {
    forall i, j :: 0 <= i < j < |tags| ==> tags[i] != tags[j]
  }

  lemma {:induction false} DistinctSnoc(tags: seq<string>, tag: string)
    requires Distinct(tags)
    ensures Distinct(tags + [tag]) <==> tag !in tags
  {
    var all := tags + [tag];
    if tag in tags {
      var i :| 0 <= i < |tags| && tags[i] == tag;
      assert all[i] == all[|tags|];
    }
  }

  lemma {:induction false} DistinctPrefix(tags: seq<string>, all: seq<string>)
    requires tags <= all && Distinct(all)
    ensures Distinct(tags)
  {
  }

  // ---- numbers ----

  function Digit(d: nat): char
    requires d < 10
  {
    ('0' as int + d) as char
  }

  function Decimal(n: nat): string {
    if n < 10 then [Digit(n)] else Decimal(n / 10) + [Digit(n % 10)]
  }

  function Value(s: string): int {
    if |s| == 0 then 0 else Value(s[..|s| - 1]) * 10 + (s[|s| - 1] as int - '0' as int)
  }

  lemma {:induction false} DecimalValue(n: nat)
    ensures Value(Decimal(n)) == n
  {
    if n >= 10 {
      DecimalValue(n / 10);
      var s := Decimal(n);
      assert s[..|s| - 1] == Decimal(n / 10);
    } else {
      assert Decimal(n)[..0] == [];
    }
  }

  // ---- renaming ----

  const MAX_PREFIX: nat := 220

  predicate Continuation(c: char) { 0x80 <= c as int < 0xC0 }

  /** The longest cut of at most 220 bytes that does not split a character. */
  function Cut(tag: string, p: nat): (q: nat)
    requires p <= |tag|
    ensures q <= p && (q == 0 || q == |tag| || !Continuation(tag[q]))
    ensures forall k :: q < k <= p && k < |tag| ==> Continuation(tag[k])
  {
    if p > 0 && p < |tag| && Continuation(tag[p]) then Cut(tag, p - 1) else p
  }

  function Prefix(tag: string): string {
    tag[..Cut(tag, if |tag| > MAX_PREFIX then MAX_PREFIX else |tag|)]
  }

  method CutPoint(tag: string) returns (p: nat)
    ensures p <= |tag| && tag[..p] == Prefix(tag)
  {
    p := if |tag| > MAX_PREFIX then MAX_PREFIX else |tag|;
    ghost var goal := Cut(tag, p);
    while p > 0 && p < |tag| && Continuation(tag[p])
      invariant p <= |tag| && Cut(tag, p) == goal
    {
      p := p - 1;
    }
  }

  function Candidate(tag: string, n: nat): string { Prefix(tag) + " (" + Decimal(n) + ")" }

  lemma {:induction false} CandidatesDiffer(tag: string, m: nat, n: nat)
    requires Candidate(tag, m) == Candidate(tag, n)
    ensures m == n
  {
    hide Prefix;
    var k, x, y := |Prefix(tag)| + 2, Candidate(tag, m), Candidate(tag, n);
    assert x[k..|x| - 1] == Decimal(m) && y[k..|y| - 1] == Decimal(n);
    DecimalValue(m);
    DecimalValue(n);
  }

  ghost predicate Taken(tags: seq<string>, tag: string, n: nat) {
    forall k :: 2 <= k <= n ==> Candidate(tag, k) in tags
  }

  function Places(tags: seq<string>): set<string> { set i | 0 <= i < |tags| :: tags[i] }

  lemma {:induction false} FewPlaces(tags: seq<string>)
    ensures |Places(tags)| <= |tags|
  {
    if |tags| == 0 {
    } else {
      var n := |tags| - 1;
      FewPlaces(tags[..n]);
      assert Places(tags) == Places(tags[..n]) + {tags[n]};
    }
  }

  ghost function Candidates(tag: string, n: nat): set<string> {
    if n < 2 then {} else Candidates(tag, n - 1) + {Candidate(tag, n)}
  }

  lemma {:induction false} ManyCandidates(tags: seq<string>, tag: string, n: nat)
    requires Taken(tags, tag, n)
    ensures Candidates(tag, n) <= Places(tags)
    ensures |Candidates(tag, n)| == if n < 2 then 0 else n - 1
    ensures forall m :: m > n ==> Candidate(tag, m) !in Candidates(tag, n)
  {
    hide Candidate;
    if n < 2 {
    } else {
      ManyCandidates(tags, tag, n - 1);
      var i :| 0 <= i < |tags| && tags[i] == Candidate(tag, n);
      forall m | m > n
        ensures Candidate(tag, m) !in Candidates(tag, n)
      {
        if Candidate(tag, m) == Candidate(tag, n) {
          CandidatesDiffer(tag, m, n);
        }
      }
    }
  }

  /** Pigeonhole: only as many candidates can be taken as there are tags. */
  lemma {:induction false} Crowded(tags: seq<string>, tag: string, n: nat)
    requires Taken(tags, tag, n) && n >= 2
    ensures n - 1 <= |tags|
  {
    hide Candidate;
    ManyCandidates(tags, tag, n);
    SubsetSize(Candidates(tag, n), Places(tags));
    FewPlaces(tags);
  }

  /** The renaming loop ends, on the first free candidate. */
  method FreshTag(tags: seq<string>, tag: string) returns (own: string)
    ensures own !in tags
    ensures tag !in tags ==> own == tag
    ensures tag in tags ==> exists n :: 2 <= n <= |tags| + 2 && own == Candidate(tag, n) && Taken(tags, tag, n - 1)
  {
    hide Taken, Prefix, Decimal;
    own := tag;
    var suffix := 1;
    NoneTaken(tags, tag);
    while own in tags
      invariant 1 <= suffix <= |tags| + 2
      invariant suffix == 1 ==> own == tag
      invariant suffix > 1 ==> own == Candidate(tag, suffix) && tag in tags
      invariant Taken(tags, tag, suffix - 1)
      decreases |tags| + 3 - suffix
    {
      MoreTaken(tags, tag, suffix);
      suffix := suffix + 1;
      var p := CutPoint(tag);
      own := tag[..p] + " (" + Decimal(suffix) + ")";
    }
    if suffix > 1 {
      assert 2 <= suffix <= |tags| + 2 && own == Candidate(tag, suffix) && Taken(tags, tag, suffix - 1);
    }
  }

  lemma {:induction false} NoneTaken(tags: seq<string>, tag: string)
    ensures Taken(tags, tag, 1) && Taken(tags, tag, 0)
  {
  }

  lemma {:induction false} MoreTaken(tags: seq<string>, tag: string, n: nat)
    requires n >= 1 && Taken(tags, tag, n - 1) && (n > 1 ==> Candidate(tag, n) in tags) && |tags| > 0
    ensures Taken(tags, tag, n) && n <= |tags| + 1
  {
    hide Candidate;
    if n >= 2 {
      Crowded(tags, tag, n);
    }
  }

  const MAX_NODES: nat := 256

  function Count(valid: seq<bool>): nat {
    if |valid| == 0 then 0 else Count(valid[..|valid| - 1]) + if valid[|valid| - 1] then 1 else 0
  }

  /** Every compatible node, up to the limit, gets a tag of its own. */
  method ImportTags(items: seq<string>, valid: seq<bool>) returns (tags: seq<string>)
    requires |items| == |valid|
    ensures Distinct(tags)
    ensures |tags| == if Count(valid) > MAX_NODES then MAX_NODES else Count(valid)
  {
    tags := [];
    for i := 0 to |items|
      invariant Distinct(tags)
      invariant |tags| == if Count(valid[..i]) > MAX_NODES then MAX_NODES else Count(valid[..i])
    {
      assert valid[..i + 1][..i] == valid[..i];
      if valid[i] && |tags| < MAX_NODES {
        var tag := FreshTag(tags, items[i]);
        DistinctSnoc(tags, tag);
        tags := tags + [tag];
      }
    }
    assert valid[..|valid|] == valid;
  }

  // ---- a built runtime ----

  datatype Node = Node(tag: string, valid: bool)
  datatype Subscription = Subscription(id: string, nodes: seq<Node>)

  const MAX_OUTBOUNDS: nat := 512
  const LOCAL: string := "local-"

  function LocalTag(id: string, tag: string): string { LOCAL + id + "/" + tag }

  function LocalTags(s: Subscription): seq<string> {
    seq(|s.nodes|, j requires 0 <= j < |s.nodes| => LocalTag(s.id, s.nodes[j].tag))
  }

  function Locals(subs: seq<Subscription>): seq<string> {
    if |subs| == 0 then [] else Locals(subs[..|subs| - 1]) + LocalTags(subs[|subs| - 1])
  }

  predicate SubscriptionOk(s: Subscription) {
    && 1 <= |s.id| <= 64 && (forall k :: 0 <= k < |s.id| ==> LabelChar(s.id[k])) && |s.nodes| <= 256
    && (forall j :: 0 <= j < |s.nodes| ==> s.nodes[j].valid)
  }

  predicate ConfiguredOk(tag: string) { TextOk(tag, 512) && !Reserved(tag) }

  const MAX_SUBSCRIPTIONS: nat := 32

  predicate Buildable(existing: seq<string>, subs: seq<Subscription>, managed: bool) {
    && |subs| <= MAX_SUBSCRIPTIONS
    && (forall i :: 0 <= i < |existing| ==> ConfiguredOk(existing[i]))
    && (forall i :: 0 <= i < |subs| ==> SubscriptionOk(subs[i]))
    && Distinct(existing + Locals(subs)) && |existing| <= MAX_OUTBOUNDS
    && (|Locals(subs)| > 0 ==> |existing| + |Locals(subs)| <= MAX_OUTBOUNDS)
    && (managed || |Locals(subs)| > 0)
  }

  function BuiltTags(existing: seq<string>, subs: seq<Subscription>, managed: bool): seq<string> {
    existing + Locals(subs) + [DIRECT] + if managed then [] else [DEFAULT_SELECTOR]
  }

  lemma {:induction false} LocalsAreLocal(subs: seq<Subscription>)
    ensures forall k :: 0 <= k < |Locals(subs)| ==> LOCAL <= Locals(subs)[k]
  {
    if |subs| == 0 {
    } else {
      LocalsAreLocal(subs[..|subs| - 1]);
      var last := subs[|subs| - 1];
      forall j | 0 <= j < |last.nodes|
        ensures LOCAL <= LocalTags(last)[j]
      {
        assert LocalTags(last)[j] == LOCAL + (last.id + "/" + last.nodes[j].tag);
      }
    }
  }

  /** Whatever could be built has pairwise distinct tags, the generated ones included. */
  lemma {:induction false} BuiltTagsDistinct(existing: seq<string>, subs: seq<Subscription>, managed: bool)
    requires Buildable(existing, subs, managed)
    ensures Distinct(BuiltTags(existing, subs, managed))
  {
    hide Locals;
    var names := existing + Locals(subs);
    LocalsAreLocal(subs);
    forall k | 0 <= k < |names|
      ensures !Reserved(names[k])
    {
      if k < |existing| {
        assert ConfiguredOk(existing[k]);
      } else {
        assert LOCAL <= Locals(subs)[k - |existing|];
        assert names[k][0] == 'l';
      }
    }
    assert Reserved(DIRECT) && Reserved(DEFAULT_SELECTOR);
    assert DIRECT[|PREFIX| + 1] == 'i' && DEFAULT_SELECTOR[|PREFIX| + 1] == 'e';
    DistinctSnoc(names, DIRECT);
    DistinctSnoc(names + [DIRECT], DEFAULT_SELECTOR);
  }

  lemma {:induction false} LocalsSnoc(subs: seq<Subscription>, n: nat)
    requires n < |subs|
    ensures Locals(subs[..n + 1]) == Locals(subs[..n]) + LocalTags(subs[n])
  {
    hide LocalTags;
    assert subs[..n + 1][..n] == subs[..n];
  }

  lemma {:induction false} LocalsPrefix(subs: seq<Subscription>, n: nat)
    requires n <= |subs|
    ensures Locals(subs[..n]) <= Locals(subs)
  {
    hide LocalTags;
    if n < |subs| {
      LocalsPrefix(subs[..|subs| - 1], n);
      assert subs[..|subs| - 1][..n] == subs[..n];
    } else {
      assert subs[..n] == subs;
    }
  }

  method CheckExisting(existing: seq<string>) returns (ok: bool)
    ensures ok <==> Distinct(existing) && forall i :: 0 <= i < |existing| ==> ConfiguredOk(existing[i])
  {
    hide ConfiguredOk;
    for n := 0 to |existing|
      invariant Distinct(existing[..n]) && forall i :: 0 <= i < n ==> ConfiguredOk(existing[i])
    {
      DistinctSnoc(existing[..n], existing[n]);
      assert existing[..n + 1] == existing[..n] + [existing[n]];
      if !ConfiguredOk(existing[n]) || existing[n] in existing[..n] {
        if Distinct(existing) {
          DistinctPrefix(existing[..n + 1], existing);
        }
        return false;
      }
    }
    assert existing[..|existing|] == existing;
    ok := true;
  }

  /** One subscription's nodes, each under a tag not used before. */
  method AddSubscription(names: seq<string>, s: Subscription) returns (ok: bool, names': seq<string>)
    requires Distinct(names)
    ensures ok <==>
            SubscriptionOk(s) && Distinct(names + LocalTags(s))
            && (|s.nodes| > 0 ==> |names| + |s.nodes| <= MAX_OUTBOUNDS)
    ensures ok ==> names' == names + LocalTags(s)
  {
    names' := names;
    if |s.id| < 1 || |s.id| > 64 || |s.nodes| > 256 || exists k :: 0 <= k < |s.id| && !LabelChar(s.id[k]) {
      return false, names';
    }
    ghost var all := LocalTags(s);
    assert names + all[..0] == names;
    for j := 0 to |s.nodes|
      invariant names' == names + all[..j] && Distinct(names')
      invariant forall i :: 0 <= i < j ==> s.nodes[i].valid
      invariant j > 0 ==> |names'| <= MAX_OUTBOUNDS
    {
      var node := s.nodes[j];
      if !node.valid || |names'| >= MAX_OUTBOUNDS {
        return false, names';
      }
      var tag := LocalTag(s.id, node.tag);
      DistinctSnoc(names', tag);
      assert names + all[..j + 1] == names' + [tag];
      if tag in names' {
        if Distinct(names + all) {
          DistinctPrefix(names + all[..j + 1], names + all);
        }
        return false, names';
      }
      names' := names' + [tag];
    }
    assert all[..|s.nodes|] == all;
    ok := true;
  }

  method BuildTags(existing: seq<string>, subs: seq<Subscription>, managed: bool) returns (tags: Option<seq<string>>)
    ensures tags.Some? <==> Buildable(existing, subs, managed)
    ensures tags.Some? ==> tags.value == BuiltTags(existing, subs, managed) && Distinct(tags.value)
  {
    hide ConfiguredOk, SubscriptionOk, LocalTags, Distinct;
    if |subs| > MAX_SUBSCRIPTIONS || |existing| > MAX_OUTBOUNDS {
      return None;
    }
    var ok := CheckExisting(existing);
    if !ok {
      if Distinct(existing + Locals(subs)) {
        DistinctPrefix(existing, existing + Locals(subs));
      }
      return None;
    }
    var names := existing;
    for n := 0 to |subs|
      invariant names == existing + Locals(subs[..n]) && Distinct(names)
      invariant forall i :: 0 <= i < n ==> SubscriptionOk(subs[i])
      invariant |Locals(subs[..n])| > 0 ==> |names| <= MAX_OUTBOUNDS
    {
      LocalsSnoc(subs, n);
      LocalsPrefix(subs, n + 1);
      SizeOfLocals(subs[n]);
      ghost var grown := names + LocalTags(subs[n]);
      assert grown == existing + Locals(subs[..n + 1]) && grown <= existing + Locals(subs);
      ok, names := AddSubscription(names, subs[n]);
      if !ok {
        if Distinct(existing + Locals(subs)) {
          DistinctPrefix(grown, existing + Locals(subs));
        }
        return None;
      }
    }
    assert subs[..|subs|] == subs;
    if !managed && |names| == |existing| {
      return None;
    }
    BuiltTagsDistinct(existing, subs, managed);
    return Some(names + [DIRECT] + if managed then [] else [DEFAULT_SELECTOR]);
  }

  lemma {:induction false} SizeOfLocals(s: Subscription)
    ensures |LocalTags(s)| == |s.nodes|
  {
  }
}
