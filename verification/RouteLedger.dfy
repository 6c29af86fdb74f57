// The route statistics table and the per-connection ledger it stands for
// (c/src/agent_clash.c).  A key's hash only speeds up comparing keys and is not
// modelled; a connection is what was parsed from one entry of a telemetry array.
module RouteLedger {
  import opened Common

  const MAX_STATS: nat := 1000

  datatype Stat = Stat(key: string, count: int, up: int, down: int, first: int, last: int, sequence: nat)
  datatype Observed = Observed(id: string, key: string, up: int, down: int, seen: bool)

  /** One entry: not a connection, a connection whose route cannot be named, or a full report. */
  datatype Entry = Skipped | Nameless(id: string) | Reported(id: string, key: string, up: int, down: int)

  datatype Ledger = Ledger(observed: seq<Observed>, stats: seq<Stat>, nextSequence: nat)
  const NEW_LEDGER: Ledger := Ledger([], [], 0)

  function Max(a: int, b: int): int { if a > b then a else b }

  // ---- the table ----

  /** The first place of a name, or the list's length. */
  function Place(names: seq<string>, name: string): (i: nat)
    ensures i <= |names| && (i < |names| ==> names[i] == name)
    ensures forall j :: 0 <= j < i ==> names[j] != name
  {
    if |names| == 0 || names[0] == name then 0 else 1 + Place(names[1..], name)
  }

  /** The place of a key in the table, or the table's length. */
  function Find(stats: seq<Stat>, key: string): (i: nat)
    ensures i <= |stats| && (i < |stats| ==> stats[i].key == key)
    ensures forall j :: 0 <= j < i ==> stats[j].key != key
  {
    var keys := seq(|stats|, i requires 0 <= i < |stats| => stats[i].key);
    assert forall j :: 0 <= j < |stats| ==> keys[j] == stats[j].key;
    Place(keys, key)
  }

  function Erased(stats: seq<Stat>, i: nat): seq<Stat>
    requires i < |stats|
  {
    stats[..i] + stats[i + 1..]
  }

  /** The first of the entries seen longest ago, among the first n. */
  function Oldest(stats: seq<Stat>, n: nat): (i: nat)
    requires 1 <= n <= |stats|
    ensures i < n && forall j :: 0 <= j < n ==> stats[i].last <= stats[j].last
  {
    if n == 1 then 0
    else
      var i := Oldest(stats, n - 1);
      if stats[n - 1].last < stats[i].last then n - 1 else i
  }

  predicate Evicts(stats: seq<Stat>, key: string) { Find(stats, key) == |stats| >= MAX_STATS }

  function Room(stats: seq<Stat>, key: string): seq<Stat> {
    if Evicts(stats, key) then Erased(stats, Oldest(stats, |stats|)) else stats
  }

  function Credited(s: Stat, count: int, up: int, down: int, now: int): Stat {
    s.(count := s.count + Max(count, 0), up := s.up + Max(up, 0), down := s.down + Max(down, 0),
          last := Max(s.last, now))
  }

  function Add(stats: seq<Stat>, next: nat, key: string, count: int, up: int, down: int, now: int): seq<Stat> {
    var i := Find(stats, key);
    if i < |stats| then stats[i := Credited(stats[i], count, up, down, now)]
    else Room(stats, key) + [Credited(Stat(key, 0, 0, 0, now, now, next), count, up, down, now)]
  }

  function NextAfter(stats: seq<Stat>, next: nat, key: string): nat {
    if Find(stats, key) < |stats| then next else next + 1
  }

  function Debited(s: Stat, o: Observed): Stat {
    s.(count := Max(s.count - 1, 0), up := Max(s.up - o.up, 0), down := Max(s.down - o.down, 0))
  }

  function Subtract(stats: seq<Stat>, o: Observed): seq<Stat> {
    var i := Find(stats, o.key);
    if i == |stats| then stats
    else
      var s := Debited(stats[i], o);
      if s.count == 0 && s.up == 0 && s.down == 0 then Erased(stats, i) else stats[i := s]
  }

  // ---- one telemetry report ----

  function FindId(observed: seq<Observed>, id: string): (i: nat)
    ensures i <= |observed| && (i < |observed| ==> observed[i].id == id)
    ensures forall j :: 0 <= j < i ==> observed[j].id != id
  {
    var ids := seq(|observed|, i requires 0 <= i < |observed| => observed[i].id);
    assert forall j :: 0 <= j < |observed| ==> ids[j] == observed[j].id;
    Place(ids, id)
  }

  /** What an entry does to the connections: the per-connection ledger. */
  function Observe(observed: seq<Observed>, e: Entry): seq<Observed> {
    match e
    case Skipped => observed
    case Nameless(id) =>
      var i := FindId(observed, id);
      if i == |observed| then observed else observed[i := observed[i].(seen := true)]
    case Reported(id, key, up, down) =>
      var i := FindId(observed, id);
      if i == |observed| then observed + [Observed(id, key, Max(up, 0), Max(down, 0), true)]
      else if observed[i].key != key then observed[i := Observed(id, key, Max(up, 0), Max(down, 0), true)]
      else observed[i := Observed(id, key, Max(observed[i].up, Max(up, 0)), Max(observed[i].down, Max(down, 0)), true)]
  }

  /** The table an entry's credits are added to: without what a rerouted connection takes with it. */
  function Before(l: Ledger, e: Entry): seq<Stat> {
    if !e.Reported? then l.stats
    else
      var i := FindId(l.observed, e.id);
      if i < |l.observed| && l.observed[i].key != e.key then Subtract(l.stats, l.observed[i]) else l.stats
  }

  function Track(l: Ledger, e: Entry, now: int): Ledger {
    if !e.Reported? then l.(observed := Observe(l.observed, e))
    else
      var i, stats := FindId(l.observed, e.id), Before(l, e);
      var up, down := Max(e.up, 0), Max(e.down, 0);
      var stats' :=
        if i < |l.observed| && l.observed[i].key == e.key
        then Add(stats, l.nextSequence, e.key, 0, Max(up - l.observed[i].up, 0), Max(down - l.observed[i].down, 0), now)
        else Add(stats, l.nextSequence, e.key, 1, up, down, now);
      Ledger(Observe(l.observed, e), stats', NextAfter(stats, l.nextSequence, e.key))
  }

  predicate EntryEvicts(l: Ledger, e: Entry) { e.Reported? && Evicts(Before(l, e), e.key) }

  /** Entries in order, up to one that cannot be named; whether all were taken. */
  function TrackAll(l: Ledger, es: seq<Entry>, now: int): (Ledger, bool) {
    if |es| == 0 then (l, true)
    else
      var (m, ok) := TrackAll(l, es[..|es| - 1], now);
      if !ok then (m, false) else (Track(m, es[|es| - 1], now), !es[|es| - 1].Nameless?)
  }

  function Unseen(observed: seq<Observed>): seq<Observed> {
    seq(|observed|, i requires 0 <= i < |observed| => observed[i].(seen := false))
  }

  function Pick(observed: seq<Observed>, seen: bool): seq<Observed> {
    if |observed| == 0 then []
    else Pick(observed[..|observed| - 1], seen) + if observed[|observed| - 1].seen == seen
        then [observed[|observed| - 1]] else []
  }

  /** A whole report: None when it is not a list, which forgets the live connections. */
  function Update(l: Ledger, report: Option<seq<Entry>>, now: int): Ledger {
    match report
    case None => l.(observed := [])
    case Some(es) =>
      var (m, ok) := TrackAll(l.(observed := Unseen(l.observed)), es, now);
      if ok then m.(observed := Pick(m.observed, true)) else m
  }

  // ---- what holds in every run ----

  predicate UniqueKeys(stats: seq<Stat>) { forall i, j :: 0 <= i < j < |stats| ==> stats[i].key != stats[j].key }
  predicate UniqueIds(observed: seq<Observed>) { forall i,
                      j :: 0 <= i < j < |observed| ==> observed[i].id != observed[j].id }

  predicate NonNegative(stats: seq<Stat>) {
    forall i :: 0 <= i < |stats| ==> 0 <= stats[i].count && 0 <= stats[i].up && 0 <= stats[i].down
  }

  predicate TableOk(l: Ledger) {
    && UniqueKeys(l.stats) && UniqueIds(l.observed) && |l.stats| <= MAX_STATS && NonNegative(l.stats)
    && (forall i :: 0 <= i < |l.observed| ==> 0 <= l.observed[i].up && 0 <= l.observed[i].down)
  }

  lemma {:induction false} AddKeepsTable(stats: seq<Stat>, next: nat, key: string, count: int, up: int, down: int,
                                         now: int)
    requires UniqueKeys(stats) && |stats| <= MAX_STATS && NonNegative(stats)
    ensures var r := Add(stats, next, key, count, up, down, now);
            UniqueKeys(r) && |r| <= MAX_STATS && NonNegative(r)
  {
    hide Room;
    if Find(stats, key) == |stats| {
      RoomKeepsTable(stats, key);
    }
  }

  lemma {:induction false} RoomKeepsTable(stats: seq<Stat>, key: string)
    requires UniqueKeys(stats) && |stats| <= MAX_STATS && NonNegative(stats) && Find(stats, key) == |stats|
    ensures var r := Room(stats, key);
            UniqueKeys(r) && |r| < MAX_STATS && NonNegative(r) && forall i :: 0 <= i < |r| ==> r[i].key != key
  {
    hide Oldest, Find;
    if Evicts(stats, key) {
      ErasedKeepsTable(stats, Oldest(stats, |stats|));
    }
  }

  lemma {:induction false} ErasedKeepsTable(stats: seq<Stat>, i: nat)
    requires UniqueKeys(stats) && NonNegative(stats) && i < |stats|
    ensures UniqueKeys(Erased(stats, i)) && NonNegative(Erased(stats, i)) && |Erased(stats, i)| == |stats| - 1
    ensures forall k :: 0 <= k < |stats| - 1 ==> Erased(stats, i)[k] == stats[if k < i then k else k + 1]
  {
  }

  lemma {:induction false} DebitedIsKept(s: Stat, o: Observed)
    ensures var r := Debited(s, o); r.key == s.key && r.count >= 0 && r.up >= 0 && r.down >= 0
  {
  }

  /** Each entry left is an old one, in order, or the debited one in its place. */
  lemma {:induction false} SubtractParts(stats: seq<Stat>, o: Observed)
    ensures var i, r := Find(stats, o.key), Subtract(stats, o);
            i < |stats| ==>
              if |r| == |stats| then r == stats[i := Debited(stats[i], o)]
              else |r| == |stats| - 1 && forall j :: 0 <= j < |r| ==> r[j] == stats[if j < i then j else j + 1]
  {
    hide Find, Debited;
  }

  lemma {:induction false} SubtractKeepsTable(stats: seq<Stat>, o: Observed)
    requires UniqueKeys(stats) && NonNegative(stats)
    ensures UniqueKeys(Subtract(stats, o)) && |Subtract(stats, o)| <= |stats| && NonNegative(Subtract(stats, o))
  {
    hide Find, Debited;
    SubtractParts(stats, o);
    if Find(stats, o.key) < |stats| {
      DebitedIsKept(stats[Find(stats, o.key)], o);
    }
  }

  lemma {:induction false} TrackKeepsTable(l: Ledger, e: Entry, now: int)
    requires TableOk(l)
    ensures TableOk(Track(l, e, now))
  {
    hide Add, Subtract;
    if e.Reported? {
      var i := FindId(l.observed, e.id);
      if i < |l.observed| {
        SubtractKeepsTable(l.stats, l.observed[i]);
      }
      forall count, up, down
        ensures var r := Add(Before(l, e), l.nextSequence, e.key, count, up, down, now);
                UniqueKeys(r) && |r| <= MAX_STATS && NonNegative(r)
      {
        AddKeepsTable(Before(l, e), l.nextSequence, e.key, count, up, down, now);
      }
    }
  }

  lemma {:induction false} TrackAllKeepsTable(l: Ledger, es: seq<Entry>, now: int)
    requires TableOk(l)
    ensures TableOk(TrackAll(l, es, now).0)
  {
    hide Track, TableOk;
    if |es| == 0 {
    } else {
      TrackAllKeepsTable(l, es[..|es| - 1], now);
      TrackKeepsTable(TrackAll(l, es[..|es| - 1], now).0, es[|es| - 1], now);
    }
  }

  lemma {:induction false} PickNone(observed: seq<Observed>)
    ensures Pick(observed[..0], true) == []
  {
  }

  lemma {:induction false} PickSnoc(observed: seq<Observed>, n: nat)
    requires n < |observed|
    ensures Pick(observed[..n + 1], true) ==
            Pick(observed[..n], true) + if observed[n].seen then [observed[n]] else []
  {
    assert observed[..n + 1][..n] == observed[..n];
  }

  lemma {:induction false} PickIsPart(observed: seq<Observed>, seen: bool)
    requires UniqueIds(observed)
    ensures UniqueIds(Pick(observed, seen)) && forall i :: 0 <= i < |Pick(observed, seen)| ==>
            Pick(observed, seen)[i] in observed
  {
    if |observed| == 0 {
    } else {
      var n := |observed| - 1;
      PickIsPart(observed[..n], seen);
      var p := Pick(observed[..n], seen);
      forall i | 0 <= i < |p|
        ensures p[i].id != observed[n].id && p[i] in observed
      {
        assert p[i] in observed[..n];
      }
    }
  }

  /** Every report keeps ids and keys unique, counters non-negative, and the table within its limit. */
  lemma {:induction false} UpdateKeepsTable(l: Ledger, report: Option<seq<Entry>>, now: int)
    requires TableOk(l)
    ensures TableOk(Update(l, report, now))
  {
    hide TrackAll, Pick;
    if report.Some? {
      var u := l.(observed := Unseen(l.observed));
      TrackAllKeepsTable(u, report.value, now);
      var m := TrackAll(u, report.value, now).0;
      PickIsPart(m.observed, true);
    }
  }

  // ---- the simple ledger ----

  datatype Credit = Credit(key: string, up: int, down: int)
  datatype Field = Count | Up | Down

  function Amount(c: Credit, f: Field): int { match f case Count => 1 case Up => c.up case Down => c.down }
  function Total(s: Stat, f: Field): int { match f case Count => s.count case Up => s.up case Down => s.down }

  function Sum(cs: seq<Credit>, key: string, f: Field): int {
    if |cs| == 0 then 0
    else Sum(cs[..|cs| - 1], key, f) + if cs[|cs| - 1].key == key then Amount(cs[|cs| - 1], f) else 0
  }

  function CreditOf(o: Observed): Credit { Credit(o.key, o.up, o.down) }
  function Live(observed: seq<Observed>): seq<Credit> {
    seq(|observed|, i requires 0 <= i < |observed| => CreditOf(observed[i]))
  }

  /** What the table says of a route; nothing for a route it does not hold. */
  function Recorded(stats: seq<Stat>, key: string, f: Field): int {
    if Find(stats, key) < |stats| then Total(stats[Find(stats, key)], f) else 0
  }

  /** Each route's counters are the sums over the closed and live connections credited to it. */
  ghost predicate Balanced(stats: seq<Stat>, closed: seq<Credit>, live: seq<Credit>) {
    && UniqueKeys(stats) && (forall i :: 0 <= i < |stats| ==> stats[i].count >= 1)
    && (forall key, f :: Recorded(stats, key, f) == Sum(closed, key, f) + Sum(live, key, f))
    && (forall i :: 0 <= i < |live| ==> 0 <= live[i].up && 0 <= live[i].down)
    && (forall i :: 0 <= i < |closed| ==> 0 <= closed[i].up && 0 <= closed[i].down)
  }

  lemma {:induction false} SumSnoc(cs: seq<Credit>, c: Credit, key: string, f: Field)
    ensures Sum(cs + [c], key, f) == Sum(cs, key, f) + if c.key == key then Amount(c, f) else 0
  {
    assert (cs + [c])[..|cs|] == cs;
  }

  lemma {:induction false} SumUpdate(cs: seq<Credit>, i: nat, c: Credit, key: string, f: Field)
    requires i < |cs|
    ensures Sum(cs[i := c], key, f) ==
            Sum(cs, key, f) - (if cs[i].key == key then Amount(cs[i], f) else 0)
                + (if c.key == key then Amount(c, f) else 0)
  {
    var n := |cs| - 1;
    if i == n {
      assert cs[i := c][..n] == cs[..n];
    } else {
      SumUpdate(cs[..n], i, c, key, f);
      assert cs[i := c][..n] == cs[..n][i := c];
    }
  }

  lemma {:induction false} SumConcat(a: seq<Credit>, b: seq<Credit>, key: string, f: Field)
    ensures Sum(a + b, key, f) == Sum(a, key, f) + Sum(b, key, f)
  {
    if |b| == 0 {
      assert a + b == a;
    } else {
      assert (a + b)[..|a + b| - 1] == a + b[..|b| - 1];
      SumConcat(a, b[..|b| - 1], key, f);
    }
  }

  predicate Credits(cs: seq<Credit>) { forall i :: 0 <= i < |cs| ==> 0 <= cs[i].up && 0 <= cs[i].down }

  lemma {:induction false} SumAtLeast(cs: seq<Credit>, i: nat, f: Field)
    requires i < |cs| && Credits(cs)
    ensures Sum(cs, cs[i].key, f) >= Amount(cs[i], f)
  {
    SumUpdate(cs, i, Elsewhere(cs[i].key), cs[i].key, f);
    SumNonNegative(cs[i := Elsewhere(cs[i].key)], cs[i].key, f);
  }

  lemma {:induction false} SumNonNegative(cs: seq<Credit>, key: string, f: Field)
    requires Credits(cs)
    ensures Sum(cs, key, f) >= 0
  {
    if |cs| == 0 {
    } else {
      SumNonNegative(cs[..|cs| - 1], key, f);
    }
  }

  // ---- what the table operations do to the records ----

  lemma {:induction false} FoundAt(stats: seq<Stat>, i: nat)
    requires UniqueKeys(stats) && i < |stats|
    ensures Find(stats, stats[i].key) == i
  {
  }

  lemma {:induction false} ErasedRecord(stats: seq<Stat>, i: nat, key: string, f: Field)
    requires UniqueKeys(stats) && i < |stats|
    ensures Recorded(Erased(stats, i), key, f) == if stats[i].key == key then 0 else Recorded(stats, key, f)
  {
    var r := Erased(stats, i);
    var j := Find(stats, key);
    if stats[i].key == key {
      FoundAt(stats, i);
      assert forall k :: 0 <= k < |r| ==> r[k].key != key;
    } else if j < |stats| {
      var k := if j < i then j else j - 1;
      assert r[k] == stats[j];
      FoundAt(r, k);
    } else {
      assert forall k :: 0 <= k < |r| ==> r[k].key != key;
    }
  }

  lemma {:induction false} ReplacedRecord(stats: seq<Stat>, i: nat, s: Stat, key: string, f: Field)
    requires UniqueKeys(stats) && i < |stats| && s.key == stats[i].key
    ensures Recorded(stats[i := s], key, f) == if s.key == key then Total(s, f) else Recorded(stats, key, f)
  {
    var r := stats[i := s];
    var j := Find(stats, key);
    FoundAt(r, i);
    if s.key != key && j < |stats| {
      FoundAt(r, j);
    } else if s.key != key {
      assert forall k :: 0 <= k < |r| ==> r[k].key != key;
    }
  }

  lemma {:induction false} AppendedRecord(stats: seq<Stat>, s: Stat, key: string, f: Field)
    requires UniqueKeys(stats) && Find(stats, s.key) == |stats|
    ensures Recorded(stats + [s], key, f) == if s.key == key then Total(s, f) else Recorded(stats, key, f)
  {
    var r := stats + [s];
    var j := Find(stats, key);
    if s.key == key {
      FoundAt(r, |stats|);
    } else if j < |stats| {
      FoundAt(r, j);
    } else {
      assert forall k :: 0 <= k < |r| ==> r[k].key != key;
    }
  }

  function Delta(count: int, up: int, down: int, f: Field): int {
    match f
    case Count => count
    case Up => up
    case Down => down
  }

  /** Without eviction, adding credits one route with exactly what was given. */
  lemma {:induction false} AddRecords(stats: seq<Stat>, next: nat, key: string, count: int, up: int, down: int,
                                      now: int, k: string, f: Field)
    requires UniqueKeys(stats) && !Evicts(stats, key) && 0 <= count && 0 <= up && 0 <= down
    ensures Recorded(Add(stats, next, key, count, up, down, now), k, f) ==
            Recorded(stats, k, f) + if k == key then Delta(count, up, down, f) else 0
  {
    var i := Find(stats, key);
    if i < |stats| {
      ReplacedRecord(stats, i, Credited(stats[i], count, up, down, now), k, f);
    } else {
      AppendedRecord(stats, Credited(Stat(key, 0, 0, 0, now, now, next), count, up, down, now), k, f);
    }
  }

  /** In a balanced table subtracting takes exactly what was credited: no clamp at zero takes effect. */
  lemma {:induction false} SubtractRecords(stats: seq<Stat>, o: Observed, k: string, f: Field)
    requires UniqueKeys(stats) && Recorded(stats, o.key, Count) >= 1
    requires Recorded(stats, o.key, Up) >= o.up && Recorded(stats, o.key, Down) >= o.down
    ensures Recorded(Subtract(stats, o), k, f) ==
            Recorded(stats, k, f) - if k == o.key then Amount(CreditOf(o), f) else 0
  {
    var i := Find(stats, o.key);
    var s := Debited(stats[i], o);
    if s.count == 0 && s.up == 0 && s.down == 0 {
      ErasedRecord(stats, i, k, f);
      assert k == o.key ==> Recorded(stats, k, f) == Total(stats[i], f);
    } else {
      ReplacedRecord(stats, i, s, k, f);
      assert k == o.key ==> Recorded(stats, k, f) == Total(stats[i], f);
    }
  }

  // ---- refinement ----

  lemma {:induction false} LiveIsBooked(stats: seq<Stat>, closed: seq<Credit>, live: seq<Credit>, i: nat)
    requires Balanced(stats, closed, live) && i < |live|
    ensures Recorded(stats, live[i].key, Count) >= 1 && Find(stats, live[i].key) < |stats|
    ensures Recorded(stats, live[i].key, Up) >= live[i].up && Recorded(stats, live[i].key, Down) >= live[i].down
  {
    hide Recorded, Find;
    forall f: Field
      ensures Recorded(stats, live[i].key, f) >= Amount(live[i], f)
    {
      SumAtLeast(live, i, f);
      SumNonNegative(closed, live[i].key, f);
    }
    assert Recorded(stats, live[i].key, Count) >= Amount(live[i], Count);
    assert Recorded(stats, live[i].key, Up) >= Amount(live[i], Up);
    assert Recorded(stats, live[i].key, Down) >= Amount(live[i], Down);
    BookedIsFound(stats, live[i].key);
  }

  lemma {:induction false} BookedIsFound(stats: seq<Stat>, key: string)
    requires Recorded(stats, key, Count) >= 1
    ensures Find(stats, key) < |stats|
  {
  }

  lemma {:induction false} LiveUpdate(observed: seq<Observed>, i: nat, o: Observed)
    requires i < |observed|
    ensures Live(observed[i := o]) == Live(observed)[i := CreditOf(o)]
  {
  }

  lemma {:induction false} LiveSnoc(observed: seq<Observed>, o: Observed)
    ensures Live(observed + [o]) == Live(observed) + [CreditOf(o)]
  {
  }

  /** A new connection adds one credit. */
  lemma {:induction false} NewBalanced(l: Ledger, e: Entry, closed: seq<Credit>, now: int)
    requires e.Reported? && FindId(l.observed, e.id) == |l.observed|
    requires Balanced(l.stats, closed, Live(l.observed)) && !EntryEvicts(l, e)
    ensures Balanced(Track(l, e, now).stats, closed, Live(Track(l, e, now).observed))
  {
    hide Recorded, Sum, Add, FindId, Find;
    var r, live := Track(l, e, now), Live(l.observed);
    var c := Credit(e.key, Max(e.up, 0), Max(e.down, 0));
    LiveSnoc(l.observed, Observed(e.id, c.key, c.up, c.down, true));
    forall k, f
      ensures Recorded(r.stats, k, f) == Sum(closed, k, f) + Sum(Live(r.observed), k, f)
    {
      AddRecords(l.stats, l.nextSequence, e.key, 1, c.up, c.down, now, k, f);
      SumSnoc(live, c, k, f);
    }
    AddCounts(l.stats, l.nextSequence, e.key, 1, c.up, c.down, now);
  }

  lemma {:induction false} AddCounts(stats: seq<Stat>, next: nat, key: string, count: int, up: int, down: int, now: int)
    requires UniqueKeys(stats) && (forall i :: 0 <= i < |stats| ==> stats[i].count >= 1)
    requires !Evicts(stats, key) && (count >= 1 || Find(stats, key) < |stats|)
    ensures var r := Add(stats, next, key, count, up, down, now);
            UniqueKeys(r) && forall i :: 0 <= i < |r| ==> r[i].count >= 1
  {
  }

  /** More traffic on the same route adds exactly the growth. */
  lemma {:induction false} GrowthBalanced(l: Ledger, e: Entry, closed: seq<Credit>, now: int)
    requires e.Reported? && FindId(l.observed, e.id) < |l.observed| && l.observed[FindId(l.observed, e.id)].key == e.key
    requires Balanced(l.stats, closed, Live(l.observed))
    ensures Balanced(Track(l, e, now).stats, closed, Live(Track(l, e, now).observed)) && !EntryEvicts(l, e)
  {
    hide Recorded, Sum, Add, FindId, Find;
    var i, live, r := FindId(l.observed, e.id), Live(l.observed), Track(l, e, now);
    var o := l.observed[i];
    LiveIsBooked(l.stats, closed, live, i);
    var up, down := Max(Max(e.up, 0) - o.up, 0), Max(Max(e.down, 0) - o.down, 0);
    var o' := Observed(e.id, e.key, Max(o.up, Max(e.up, 0)), Max(o.down, Max(e.down, 0)), true);
    assert r.observed == l.observed[i := o'];
    LiveUpdate(l.observed, i, o');
    forall k, f
      ensures Recorded(r.stats, k, f) == Sum(closed, k, f) + Sum(Live(r.observed), k, f)
    {
      AddRecords(l.stats, l.nextSequence, e.key, 0, up, down, now, k, f);
      SumUpdate(live, i, CreditOf(o'), k, f);
    }
    AddCounts(l.stats, l.nextSequence, e.key, 0, up, down, now);
  }

  lemma {:induction false} SubtractCounts(stats: seq<Stat>, o: Observed)
    requires UniqueKeys(stats) && (forall i :: 0 <= i < |stats| ==> stats[i].count >= 1)
    ensures UniqueKeys(Subtract(stats, o))
    ensures forall i :: 0 <= i < |Subtract(stats, o)| ==>
              var s := Subtract(stats, o)[i];
              s.count >= 1 || (s.count == 0 && s.key == o.key && (s.up != 0 || s.down != 0))
  {
    hide Find;
    SubtractParts(stats, o);
  }

  /** A rerouted connection moves, alone, with what it was credited. */
  lemma {:induction false} MovedOut(l: Ledger, e: Entry, closed: seq<Credit>)
    requires e.Reported? && FindId(l.observed, e.id) < |l.observed| && l.observed[FindId(l.observed, e.id)].key != e.key
    requires Balanced(l.stats, closed, Live(l.observed))
    ensures var i := FindId(l.observed, e.id);
            var o := l.observed[i];
            && UniqueKeys(Before(l, e))
            && (forall k, f :: Recorded(Before(l, e), k, f) ==
                  Recorded(l.stats, k, f) - if k == o.key then Amount(CreditOf(o), f) else 0)
            && (forall j :: 0 <= j < |Before(l, e)| ==> Before(l, e)[j].count >= 1)
  {
    hide Recorded, Sum, Subtract, FindId, Find;
    var i, live := FindId(l.observed, e.id), Live(l.observed);
    var o, r := l.observed[i], Before(l, e);
    LiveIsBooked(l.stats, closed, live, i);
    SubtractCounts(l.stats, o);
    forall k, f
      ensures Recorded(r, k, f) == Recorded(l.stats, k, f) - if k == o.key then Amount(CreditOf(o), f) else 0
    {
      SubtractRecords(l.stats, o, k, f);
    }
    forall f: Field
      ensures Recorded(r, o.key, f) == Sum(closed, o.key, f) + Sum(live[i := Elsewhere(o.key)], o.key, f)
    {
      SumUpdate(live, i, Elsewhere(o.key), o.key, f);
    }
    forall j | 0 <= j < |r|
      ensures r[j].count >= 1
    {
      RecordedAt(r, j, Count);
      RecordedAt(r, j, Up);
      RecordedAt(r, j, Down);
      NothingWithout(closed, live[i := Elsewhere(o.key)], o.key);
    }
  }

  function Elsewhere(key: string): Credit { Credit(key + "x", 0, 0) }

  /** Where no connection is credited, no bytes are. */
  lemma {:induction false} NothingWithout(a: seq<Credit>, b: seq<Credit>, key: string)
    requires Credits(a) && Credits(b)
    ensures Sum(a, key, Count) >= 0 && Sum(b, key, Count) >= 0
    ensures Sum(a, key, Count) + Sum(b, key, Count) == 0 ==> forall f :: Sum(a, key, f) + Sum(b, key, f) == 0
  {
    NoneWithout(a, key);
    NoneWithout(b, key);
  }

  lemma {:induction false} NoneWithout(cs: seq<Credit>, key: string)
    ensures Sum(cs, key, Count) >= 0 && (Sum(cs, key, Count) == 0 ==> forall f :: Sum(cs, key, f) == 0)
  {
    if |cs| == 0 {
    } else {
      NoneWithout(cs[..|cs| - 1], key);
    }
  }

  lemma {:induction false} RecordedAt(stats: seq<Stat>, j: nat, f: Field)
    requires UniqueKeys(stats) && j < |stats|
    ensures Recorded(stats, stats[j].key, f) == Total(stats[j], f)
  {
    FoundAt(stats, j);
  }

  lemma {:induction false} MoveBalanced(l: Ledger, e: Entry, closed: seq<Credit>, now: int)
    requires e.Reported? && FindId(l.observed, e.id) < |l.observed| && l.observed[FindId(l.observed, e.id)].key != e.key
    requires Balanced(l.stats, closed, Live(l.observed)) && !EntryEvicts(l, e)
    ensures Balanced(Track(l, e, now).stats, closed, Live(Track(l, e, now).observed))
  {
    hide Recorded, Sum, Add, FindId, Find, Before;
    var i, live, r := FindId(l.observed, e.id), Live(l.observed), Track(l, e, now);
    var o := l.observed[i];
    var c := Credit(e.key, Max(e.up, 0), Max(e.down, 0));
    MovedOut(l, e, closed);
    LiveUpdate(l.observed, i, Observed(e.id, c.key, c.up, c.down, true));
    forall k, f
      ensures Recorded(r.stats, k, f) == Sum(closed, k, f) + Sum(Live(r.observed), k, f)
    {
      AddRecords(Before(l, e), l.nextSequence, e.key, 1, c.up, c.down, now, k, f);
      SumUpdate(live, i, c, k, f);
    }
    AddCounts(Before(l, e), l.nextSequence, e.key, 1, c.up, c.down, now);
  }

  // ---- eviction is the one thing that breaks it ----

  lemma {:induction false} NotSameRoute(l: Ledger, e: Entry, closed: seq<Credit>)
    requires EntryEvicts(l, e) && Balanced(l.stats, closed, Live(l.observed))
    ensures FindId(l.observed, e.id) < |l.observed| ==> l.observed[FindId(l.observed, e.id)].key != e.key
  {
    hide Sum, Recorded, FindId, Find;
    var i := FindId(l.observed, e.id);
    if i < |l.observed| && l.observed[i].key == e.key {
      LiveIsBooked(l.stats, closed, Live(l.observed), i);
      assert false;
    }
  }

  lemma {:induction false} EvictedRecord(stats: seq<Stat>, next: nat, key: string, count: int, up: int, down: int,
                                         now: int)
    requires UniqueKeys(stats) && |stats| <= MAX_STATS && NonNegative(stats) && Evicts(stats, key)
    ensures var gone := stats[Oldest(stats, |stats|)].key;
            gone != key && Recorded(Add(stats, next, key, count, up, down, now), gone, Count) == 0
  {
    hide Oldest;
    var o := Oldest(stats, |stats|);
    var gone, room := stats[o].key, Erased(stats, o);
    RoomKeepsTable(stats, key);
    ErasedRecord(stats, o, gone, Count);
    AppendedRecord(room, Credited(Stat(key, 0, 0, 0, now, now, next), count, up, down, now), gone, Count);
  }

  /** An eviction forgets a route that still has connections credited to it. */
  lemma {:induction false} EvictionUnbalances(l: Ledger, e: Entry, closed: seq<Credit>, now: int)
    requires TableOk(l) && EntryEvicts(l, e) && Balanced(l.stats, closed, Live(l.observed))
    ensures !Balanced(Track(l, e, now).stats, closed, Live(Track(l, e, now).observed))
  {
    hide Sum, FindId, Recorded, Oldest, Find, Add, Subtract;
    var i, live, r, before := FindId(l.observed, e.id), Live(l.observed), Track(l, e, now), Before(l, e);
    var c := Credit(e.key, Max(e.up, 0), Max(e.down, 0));
    NotSameRoute(l, e, closed);
    if i < |l.observed| {
      MovedOut(l, e, closed);
      SubtractKeepsTable(l.stats, l.observed[i]);
      LiveUpdate(l.observed, i, Observed(e.id, c.key, c.up, c.down, true));
    } else {
      LiveSnoc(l.observed, Observed(e.id, c.key, c.up, c.down, true));
    }
    EvictedRecord(before, l.nextSequence, e.key, 1, c.up, c.down, now);
    var o := Oldest(before, |before|);
    var gone := before[o].key;
    RecordedAt(before, o, Count);
    if i < |l.observed| {
      SumUpdate(live, i, c, gone, Count);
    } else {
      SumSnoc(live, c, gone, Count);
    }
    assert Sum(closed, gone, Count) + Sum(Live(r.observed), gone, Count) >= 1;
    assert Recorded(r.stats, gone, Count) == 0;
  }

  /** An entry keeps the books if and only if it evicts nothing. */
  lemma {:induction false} TrackBalanced(l: Ledger, e: Entry, closed: seq<Credit>, now: int)
    requires TableOk(l) && Balanced(l.stats, closed, Live(l.observed))
    ensures Balanced(Track(l, e, now).stats, closed, Live(Track(l, e, now).observed)) <==> !EntryEvicts(l, e)
  {
    hide Balanced, TableOk, FindId, Before, Evicts;
    if !e.Reported? {
      MarkingIsFree(l, e);
    } else if EntryEvicts(l, e) {
      EvictionUnbalances(l, e, closed, now);
    } else if FindId(l.observed, e.id) == |l.observed| {
      NewBalanced(l, e, closed, now);
    } else if l.observed[FindId(l.observed, e.id)].key == e.key {
      GrowthBalanced(l, e, closed, now);
    } else {
      MoveBalanced(l, e, closed, now);
    }
  }

  lemma {:induction false} MarkingIsFree(l: Ledger, e: Entry)
    requires !e.Reported?
    ensures Live(Observe(l.observed, e)) == Live(l.observed)
  {
  }

  ghost predicate NoEviction(l: Ledger, es: seq<Entry>, now: int) {
    forall n :: 0 <= n < |es| ==> !EntryEvicts(TrackAll(l, es[..n], now).0, es[n])
  }

  lemma {:induction false} TrackAllBalanced(l: Ledger, es: seq<Entry>, closed: seq<Credit>, now: int)
    requires TableOk(l) && Balanced(l.stats, closed, Live(l.observed)) && NoEviction(l, es, now)
    ensures var m := TrackAll(l, es, now).0; Balanced(m.stats, closed, Live(m.observed))
  {
    hide Track, TableOk, Balanced, EntryEvicts, Live;
    if |es| == 0 {
    } else {
      var n := |es| - 1;
      forall k | 0 <= k < n
        ensures !EntryEvicts(TrackAll(l, es[..n][..k], now).0, es[..n][k])
      {
        assert es[..n][..k] == es[..k];
        assert !EntryEvicts(TrackAll(l, es[..k], now).0, es[k]);
      }
      TrackAllBalanced(l, es[..n], closed, now);
      TrackAllKeepsTable(l, es[..n], now);
      TrackBalanced(TrackAll(l, es[..n], now).0, es[n], closed, now);
    }
  }

  // ---- whole reports and runs ----

  /** Connections a report shows to be closed. */
  function Ended(l: Ledger, report: Option<seq<Entry>>, now: int): seq<Credit> {
    match report
    case None => Live(l.observed)
    case Some(es) =>
      var (m, ok) := TrackAll(l.(observed := Unseen(l.observed)), es, now);
      if ok then Live(Pick(m.observed, false)) else []
  }

  lemma {:induction false} PickSums(observed: seq<Observed>, key: string, f: Field)
    ensures Sum(Live(observed), key, f) == Sum(Live(Pick(observed, true)), key, f)
            + Sum(Live(Pick(observed, false)), key, f)
  {
    if |observed| == 0 {
    } else {
      var n := |observed| - 1;
      PickSums(observed[..n], key, f);
      assert observed == observed[..n] + [observed[n]];
      LiveSnoc(observed[..n], observed[n]);
      SumSnoc(Live(observed[..n]), CreditOf(observed[n]), key, f);
      var p := Pick(observed[..n], observed[n].seen);
      LiveSnoc(p, observed[n]);
      SumSnoc(Live(p), CreditOf(observed[n]), key, f);
      assert Pick(observed[..n], !observed[n].seen) + [] == Pick(observed[..n], !observed[n].seen);
    }
  }

  lemma {:induction false} PickCredits(observed: seq<Observed>, seen: bool)
    requires Credits(Live(observed))
    ensures Credits(Live(Pick(observed, seen)))
  {
    if |observed| == 0 {
    } else {
      var n := |observed| - 1;
      assert Live(observed)[n] == CreditOf(observed[n]);
      assert Live(observed[..n]) == Live(observed)[..n];
      PickCredits(observed[..n], seen);
      LiveSnoc(Pick(observed[..n], seen), observed[n]);
      assert Pick(observed[..n], seen) + [] == Pick(observed[..n], seen);
    }
  }

  /** Sweeping moves the unseen connections, with their credits, to the closed ones. */
  lemma {:induction false} SweepBalanced(stats: seq<Stat>, closed: seq<Credit>, observed: seq<Observed>)
    requires Balanced(stats, closed, Live(observed))
    ensures Balanced(stats, closed + Live(Pick(observed, false)), Live(Pick(observed, true)))
  {
    hide Recorded, Sum, Pick, Live;
    PickCredits(observed, true);
    PickCredits(observed, false);
    forall key, f
      ensures Recorded(stats, key, f) == Sum(closed + Live(Pick(observed, false)), key, f)
              + Sum(Live(Pick(observed, true)), key, f)
    {
      PickSums(observed, key, f);
      SumConcat(closed, Live(Pick(observed, false)), key, f);
    }
  }

  lemma {:induction false} ForgetBalanced(stats: seq<Stat>, closed: seq<Credit>, live: seq<Credit>)
    requires Balanced(stats, closed, live)
    ensures Balanced(stats, closed + live, [])
  {
    hide Recorded;
    forall key, f
      ensures Recorded(stats, key, f) == Sum(closed + live, key, f) + Sum([], key, f)
    {
      SumConcat(closed, live, key, f);
    }
  }

  ghost predicate QuietUpdate(l: Ledger, report: Option<seq<Entry>>, now: int) {
    report.Some? ==> NoEviction(l.(observed := Unseen(l.observed)), report.value, now)
  }

  lemma {:induction false} UpdateBalanced(l: Ledger, report: Option<seq<Entry>>, closed: seq<Credit>, now: int)
    requires TableOk(l) && Balanced(l.stats, closed, Live(l.observed)) && QuietUpdate(l, report, now)
    ensures var r := Update(l, report, now); Balanced(r.stats, closed + Ended(l, report, now), Live(r.observed))
  {
    hide Balanced, TrackAll, Pick, NoEviction, EntryEvicts;
    match report
    case None =>
      ForgetBalanced(l.stats, closed, Live(l.observed));
      assert Live([]) == [];
    case Some(es) =>
      var u := l.(observed := Unseen(l.observed));
      assert Live(u.observed) == Live(l.observed);
      assert TableOk(u);
      TrackAllBalanced(u, es, closed, now);
      var (m, ok) := TrackAll(u, es, now);
      if ok {
        SweepBalanced(m.stats, closed, m.observed);
      } else {
        assert closed + [] == closed;
      }
  }

  datatype Round = Round(report: Option<seq<Entry>>, now: int)

  function Run(rounds: seq<Round>): Ledger {
    if |rounds| == 0 then NEW_LEDGER
    else Update(Run(rounds[..|rounds| - 1]), rounds[|rounds| - 1].report, rounds[|rounds| - 1].now)
  }

  function AllEnded(rounds: seq<Round>): seq<Credit> {
    if |rounds| == 0 then []
    else
      var n := |rounds| - 1;
      AllEnded(rounds[..n]) + Ended(Run(rounds[..n]), rounds[n].report, rounds[n].now)
  }

  ghost predicate QuietRun(rounds: seq<Round>) {
    forall n :: 0 <= n < |rounds| ==> QuietUpdate(Run(rounds[..n]), rounds[n].report, rounds[n].now)
  }

  lemma {:induction false} RunKeepsTable(rounds: seq<Round>)
    ensures TableOk(Run(rounds))
  {
    hide Update;
    if |rounds| == 0 {
    } else {
      RunKeepsTable(rounds[..|rounds| - 1]);
      UpdateKeepsTable(Run(rounds[..|rounds| - 1]), rounds[|rounds| - 1].report, rounds[|rounds| - 1].now);
    }
  }

  /** Over any run without an eviction the table says what the connections add up to. */
  lemma {:induction false} RunBalanced(rounds: seq<Round>)
    requires QuietRun(rounds)
    ensures Balanced(Run(rounds).stats, AllEnded(rounds), Live(Run(rounds).observed))
  {
    hide Balanced, Update, Ended, QuietUpdate;
    if |rounds| == 0 {
      NothingYet();
    } else {
      var n := |rounds| - 1;
      forall k | 0 <= k < n
        ensures QuietUpdate(Run(rounds[..n][..k]), rounds[..n][k].report, rounds[..n][k].now)
      {
        assert rounds[..n][..k] == rounds[..k];
        assert QuietUpdate(Run(rounds[..k]), rounds[k].report, rounds[k].now);
      }
      RunBalanced(rounds[..n]);
      RunKeepsTable(rounds[..n]);
      UpdateBalanced(Run(rounds[..n]), rounds[n].report, AllEnded(rounds[..n]), rounds[n].now);
    }
  }

  lemma {:induction false} NothingYet()
    ensures Balanced([], [], Live([]))
  {
    assert Live([]) == [];
  }

  // ---- a run that evicts ----

  /** A name for each number. */
  function Name(k: nat): string { seq(k, _ => 'x') }

  function Arrival(k: nat): Entry { Reported(Name(k), Name(k), 0, 0) }

  function Arrivals(n: nat): seq<Entry> { seq(n, k requires 0 <= k < n => Arrival(k)) }

  /** After n arrivals: n connections on n routes, all of them seen. */
  predicate Crowd(l: Ledger, n: nat) {
    && |l.stats| == n && |l.observed| == n
    && (forall k :: 0 <= k < n ==> l.stats[k].key == Name(k) && l.observed[k].id == Name(k) && l.observed[k].seen)
  }

  lemma {:induction false} NamesDiffer(k: nat, n: nat)
    requires k != n
    ensures Name(k) != Name(n)
  {
    assert |Name(k)| == k && |Name(n)| == n;
  }

  lemma {:induction false} Newcomer(l: Ledger, n: nat)
    requires Crowd(l, n)
    ensures FindId(l.observed, Name(n)) == n && Find(l.stats, Name(n)) == n
  {
    forall k | 0 <= k < n
      ensures l.stats[k].key != Name(n) && l.observed[k].id != Name(n)
    {
      NamesDiffer(k, n);
    }
  }

  lemma {:induction false} CrowdGrows(n: nat, now: int)
    requires n <= MAX_STATS
    ensures var (l, ok) := TrackAll(NEW_LEDGER, Arrivals(n), now);
            ok && Crowd(l, n) && TableOk(l) && Balanced(l.stats, [], Live(l.observed))
  {
    hide Balanced, TableOk, Track, Find, FindId;
    if n == 0 {
      NothingYet();
      assert TableOk(NEW_LEDGER) by { EmptyTable(); }
    } else {
      CrowdGrows(n - 1, now);
      assert Arrivals(n)[..n - 1] == Arrivals(n - 1);
      var l := TrackAll(NEW_LEDGER, Arrivals(n - 1), now).0;
      OneArrival(l, n - 1, now);
      TrackKeepsTable(l, Arrival(n - 1), now);
      TrackBalanced(l, Arrival(n - 1), [], now);
    }
  }

  lemma {:induction false} EmptyTable()
    ensures TableOk(NEW_LEDGER)
  {
  }

  lemma {:induction false} OneArrival(l: Ledger, n: nat, now: int)
    requires Crowd(l, n)
    ensures EntryEvicts(l, Arrival(n)) <==> n >= MAX_STATS
    ensures n < MAX_STATS ==> Crowd(Track(l, Arrival(n), now), n + 1)
    ensures Track(l, Arrival(n), now).observed == l.observed + [Observed(Name(n), Name(n), 0, 0, true)]
  {
    hide Find, FindId, Name;
    Newcomer(l, n);
  }

  lemma {:induction false} AllSeen(observed: seq<Observed>)
    requires forall k :: 0 <= k < |observed| ==> observed[k].seen
    ensures Pick(observed, true) == observed && Pick(observed, false) == []
  {
    if |observed| == 0 {
    } else {
      var n := |observed| - 1;
      AllSeen(observed[..n]);
      assert observed == observed[..n] + [observed[n]];
    }
  }

  /**
   * One report of 1001 new connections, each on a route of its own: the last
   * one evicts, and the table it leaves does not say what the connections add
   * up to.
   */
  lemma {:induction false} EvictionHappens()
    ensures var rounds := [Round(Some(Arrivals(MAX_STATS + 1)), 0)];
            && EntryEvicts(TrackAll(NEW_LEDGER, Arrivals(MAX_STATS), 0).0, Arrival(MAX_STATS))
            && !Balanced(Run(rounds).stats, AllEnded(rounds), Live(Run(rounds).observed))
  {
    hide Balanced, TableOk, Track, TrackAll, Find, FindId, EntryEvicts, Live;
    var n, es := MAX_STATS, Arrivals(MAX_STATS + 1);
    var l := TrackAll(NEW_LEDGER, Arrivals(n), 0).0;
    var m := Track(l, Arrival(n), 0);
    CrowdGrows(n, 0);
    OneArrival(l, n, 0);
    EvictionUnbalances(l, Arrival(n), [], 0);
    LastEntry(n);
    AllSeen(m.observed);
    OneRound(es, m);
  }

  lemma {:induction false} LastEntry(n: nat)
    ensures TrackAll(NEW_LEDGER, Arrivals(n), 0).1 ==>
              TrackAll(NEW_LEDGER, Arrivals(n + 1), 0) ==
                  (Track(TrackAll(NEW_LEDGER, Arrivals(n), 0).0, Arrival(n), 0), true)
  {
    hide Track;
    assert Arrivals(n + 1)[..n] == Arrivals(n);
  }

  lemma {:induction false} OneRound(es: seq<Entry>, m: Ledger)
    requires TrackAll(NEW_LEDGER, es, 0) == (m, true) && Pick(m.observed, true) == m.observed
             && Pick(m.observed, false) == []
    ensures var rounds := [Round(Some(es), 0)];
            Run(rounds) == m && AllEnded(rounds) == []
  {
    hide TrackAll, Pick;
    var rounds := [Round(Some(es), 0)];
    assert rounds[..0] == [] && Unseen([]) == [] && Live([]) == [];
  }

  // ---- the table in place ----

  class Table {
    var observed: seq<Observed>
    var stats: seq<Stat>
    var nextSequence: nat

    function State(): Ledger
      reads this
    {
      Ledger(observed, stats, nextSequence)
    }

    constructor ()
      ensures State() == NEW_LEDGER
    {
      observed, stats, nextSequence := [], [], 0;
    }

    method FindStat(key: string) returns (i: nat)
      ensures i == Find(stats, key)
    {
      i := 0;
      while i < |stats| && stats[i].key != key
        invariant i <= |stats| && forall j :: 0 <= j < i ==> stats[j].key != key
      {
        i := i + 1;
      }
    }

    method FindObserved(id: string) returns (i: nat)
      ensures i == FindId(observed, id)
    {
      i := 0;
      while i < |observed| && observed[i].id != id
        invariant i <= |observed| && forall j :: 0 <= j < i ==> observed[j].id != id
      {
        i := i + 1;
      }
    }

    method EvictOldest()
      requires |stats| > 0
      modifies `stats
      ensures stats == Erased(old(stats), Oldest(old(stats), |old(stats)|))
    {
      var oldest := 0;
      for i := 1 to |stats|
        invariant oldest == Oldest(stats, i)
      {
        if stats[i].last < stats[oldest].last {
          oldest := i;
        }
      }
      stats := stats[..oldest] + stats[oldest + 1..];
    }

    method AddRoute(key: string, count: int, up: int, down: int, now: int)
      modifies `stats, `nextSequence
      ensures stats == Add(old(stats), old(nextSequence), key, count, up, down, now)
      ensures nextSequence == NextAfter(old(stats), old(nextSequence), key)
    {
      hide Oldest;
      var i := FindStat(key);
      if i == |stats| && |stats| >= MAX_STATS {
        EvictOldest();
        i := |stats|;
      }
      if i == |stats| {
        stats := stats + [Stat(key, 0, 0, 0, now, now, nextSequence)];
        nextSequence := nextSequence + 1;
      }
      var s := stats[i];
      stats := stats[i := s.(count := s.count + Max(count, 0), up := s.up + Max(up, 0), down := s.down + Max(down, 0),
                             last := Max(s.last, now))];
    }

    method SubtractRoute(o: Observed)
      modifies `stats
      ensures stats == Subtract(old(stats), o)
    {
      var i := FindStat(o.key);
      if i == |stats| {
        return;
      }
      var s := stats[i];
      s := s.(count := Max(s.count - 1, 0), up := Max(s.up - o.up, 0), down := Max(s.down - o.down, 0));
      if s.count == 0 && s.up == 0 && s.down == 0 {
        stats := stats[..i] + stats[i + 1..];
      } else {
        stats := stats[i := s];
      }
    }

    method TrackEntry(e: Entry, now: int)
      modifies this
      ensures State() == Track(old(State()), e, now)
    {
      hide Add, Subtract, Find, FindId;
      if e.Skipped? {
        return;
      }
      var i := FindObserved(e.id);
      if i < |observed| {
        observed := observed[i := observed[i].(seen := true)];
      }
      if e.Nameless? {
        return;
      }
      var up, down := Max(e.up, 0), Max(e.down, 0);
      if i == |observed| {
        AddRoute(e.key, 1, up, down, now);
        observed := observed + [Observed(e.id, e.key, up, down, true)];
        return;
      }
      var o := observed[i];
      if o.key != e.key {
        SubtractUnmarked(stats, old(observed)[i], o);
        SubtractRoute(o);
        AddRoute(e.key, 1, up, down, now);
        observed := observed[i := o.(key := e.key, up := up, down := down)];
        return;
      }
      AddRoute(e.key, 0, Max(up - o.up, 0), Max(down - o.down, 0), now);
      observed := observed[i := o.(up := Max(o.up, up), down := Max(o.down, down))];
    }

    method MarkUnseen()
      modifies `observed
      ensures observed == Unseen(old(observed))
    {
      for i := 0 to |observed|
        invariant |observed| == |old(observed)|
        invariant forall j :: 0 <= j < |observed| ==>
                    observed[j] == if j < i then old(observed)[j].(seen := false) else old(observed)[j]
      {
        observed := observed[i := observed[i].(seen := false)];
      }
    }

    /** Keeps the seen connections, moving each down over the dropped ones. */
    method Sweep()
      modifies `observed
      ensures observed == Pick(old(observed), true)
    {
      hide Pick;
      var kept := 0;
      ghost var was := observed;
      PickNone(was);
      for i := 0 to |observed|
        invariant kept <= i && |observed| == |was|
        invariant observed[..kept] == Pick(was[..i], true) && observed[i..] == was[i..]
      {
        PickSnoc(was, i);
        assert observed[i] == was[i];
        if observed[i].seen {
          ghost var picked := observed[..kept];
          observed := observed[kept := observed[i]];
          kept := kept + 1;
          assert observed[..kept] == picked + [was[i]];
        }
        assert observed[i + 1..] == was[i + 1..];
      }
      assert was[..|was|] == was;
      observed := observed[..kept];
    }

    method UpdateStats(report: Option<seq<Entry>>, now: int) returns (ok: bool)
      modifies this
      ensures State() == Update(old(State()), report, now)
      ensures ok <==> report.None? || TrackAll(old(State()).(observed := Unseen(old(observed))), report.value, now).1
    {
      hide Track, Pick, Unseen;
      if report.None? {
        observed := [];
        return true;
      }
      MarkUnseen();
      ghost var u := State();
      var es := report.value;
      assert es[..0] == [];
      for n := 0 to |es|
        invariant TrackAll(u, es[..n], now) == (State(), true)
      {
        assert es[..n + 1][..n] == es[..n] && es[..n + 1][n] == es[n];
        TrackEntry(es[n], now);
        if es[n].Nameless? {
          StopsThere(u, es, n, now);
          return false;
        }
      }
      assert es[..|es|] == es;
      Sweep();
      return true;
    }
  }

  lemma {:induction false} SubtractUnmarked(stats: seq<Stat>, o: Observed, p: Observed)
    requires p == o.(seen := true)
    ensures Subtract(stats, o) == Subtract(stats, p)
  {
  }

  lemma {:induction false} StopsThere(l: Ledger, es: seq<Entry>, n: nat, now: int)
    requires n < |es| && TrackAll(l, es[..n], now).1 && es[n].Nameless?
    ensures TrackAll(l, es, now) == (Track(TrackAll(l, es[..n], now).0, es[n], now), false)
    decreases |es|
  {
    hide Track;
    var m := |es| - 1;
    if n < m {
      assert es[..m][..n] == es[..n];
      StopsThere(l, es[..m], n, now);
    } else {
      assert es[..m] == es[..n];
    }
  }
}
