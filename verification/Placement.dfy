/** What the planner works on: its inputs, well-formed partitions, load and kept copies. */
module Placement {
  import opened Ops
  import opened Replica
  import opened Layouts

  datatype Config = Config(count: int, factor: int)

  datatype PartStatus = PartStatus(role: Role, epoch: int, dataEpoch: int, number: int, synced: bool, sealed: bool)

  datatype NodeStatus = NodeStatus(layoutVersion: int, parts: map<Ref, PartStatus>)

  /** Everything the planner looks at besides the layout; nodes maps each live node to its incarnation. */
  datatype Input = Input(
    config: Config, nodes: map<string, int>, drained: set<string>, status: map<string, NodeStatus>, now: int, autoBalance: bool)
  {
    function StatusOf(node: string, ref: Ref): Option<PartStatus> {
      if node in status && ref in status[node].parts then Some(status[node].parts[ref]) else None
    }

    /** A node that is being moved off a partition. */
    predicate Evicted(node: string, p: Part) { node in drained || node in p.evict }

    /** Data epoch and sequence number a node reports, zero if it reports nothing. */
    function Position(node: string, ref: Ref): (int, int) {
      var st := StatusOf(node, ref);
      if st.Some? then (st.value.dataEpoch, st.value.number) else (0, 0)
    }

    /** The old leader reports that it sealed after seeing this handoff, and the target that it has everything. */
    predicate Completes(ref: Ref, p: Part) {
      && p.leader in status && status[p.leader].layoutVersion >= p.handoffVersion
      && var ls, ts := StatusOf(p.leader, ref), StatusOf(p.handoffTo, ref);
      && ls.Some? && ls.value.sealed
      && ts.Some? && ts.value.dataEpoch == p.epoch && ts.value.number >= ls.value.number
    }

    predicate Synced(node: string, ref: Ref) { StatusOf(node, ref).Some? && StatusOf(node, ref).value.synced }
  }

  predicate Newer(a: (int, int), b: (int, int)) { a.0 > b.0 || (a.0 == b.0 && a.1 > b.1) }

  // ----- well-formed partitions -----

  /** No node twice, only members, and a handoff always names an in-sync follower. */
  ghost predicate Core(p: Part, members: set<string>) {
    && "" !in members
    && Distinct(p.followers) && Distinct(p.joining) && Distinct(p.evict)
    && (forall n :: n in p.followers ==> n in members && n !in p.joining && n != p.leader)
    && (forall n :: n in p.joining ==> n in members && n != p.leader)
    && (p.leader != "" ==> p.leader in members)
    && (p.state == Active ==> p.handoffTo == "")
    && (p.state == HandingOff ==> p.handoffTo in p.followers)
    && p.epoch >= 0 && (p.leader != "" ==> p.epoch >= 1)
  }

  /** Only copies that exist are marked for eviction. */
  ghost predicate EvictsHolders(p: Part) { forall n :: n in p.evict ==> n != "" && p.Has(n) }

  /** A partition that may just have lost its leader. */
  ghost predicate Orphanable(p: Part, members: set<string>) { Core(p, members) && EvictsHolders(p) }

  ghost predicate PartOk(p: Part, members: set<string>) {
    Orphanable(p, members) && (p.leader == "" ==> p.followers == [])
  }

  /** Leader, followers and joining are one duplicate-free list of members. */
  lemma HoldersDistinct(p: Part, members: set<string>)
    requires Core(p, members)
    ensures Distinct(p.Holders()) && forall n :: n in p.Holders() ==> n in members
  {
    var head := if p.leader != "" then [p.leader] else [];
    DistinctConcat(head, p.followers);
    DistinctConcat(head + p.followers, p.joining);
  }

  lemma DistinctConcat(a: seq<string>, b: seq<string>)
    requires Distinct(a) && Distinct(b) && forall n :: n in a ==> n !in b
    ensures Distinct(a + b)
  {
    forall i, j | 0 <= i < j < |a + b|
      ensures (a + b)[i] != (a + b)[j]
    {
      if i < |a| <= j {
        assert (a + b)[i] in a && (a + b)[j] in b;
      }
    }
  }

  function Cleared(p: Part): Part { p.(state := Active, handoffTo := "", handoffAt := 0, handoffVersion := 0) }

  function HandingTo(p: Part, target: string, now: int, version: int): Part {
    p.(state := HandingOff, handoffTo := target, handoffAt := now, handoffVersion := version)
  }

  /**
   * How leadership may change: an epoch belongs to the leader it started with, who can only be
   * lost; any other leader comes with a higher epoch.
   */
  predicate Later(p: Part, p': Part) {
    && p'.id == p.id && p.epoch <= p'.epoch
    && (p'.epoch == p.epoch ==> p'.leader == p.leader || p'.leader == "")
  }

  lemma LaterTrans(a: Part, b: Part, c: Part)
    requires Later(a, b) && Later(b, c)
    ensures Later(a, c)
  {}

  // ----- load -----

  /** Does the node's copy count as load? */
  predicate Counts(p: Part, node: string) { p.Has(node) && node !in p.evict }

  function Contrib(p: Part, node: string): nat { if Counts(p, node) then 1 else 0 }

  function LoadOf(parts: seq<Part>, node: string): nat {
    if parts == [] then 0 else LoadOf(parts[..|parts| - 1], node) + Contrib(parts[|parts| - 1], node)
  }

  lemma LoadAppend(parts: seq<Part>, p: Part, node: string)
    ensures LoadOf(parts + [p], node) == LoadOf(parts, node) + Contrib(p, node)
  {
    assert (parts + [p])[..|parts|] == parts;
  }

  lemma {:induction false} LoadUpdate(parts: seq<Part>, i: nat, p: Part, node: string)
    requires i < |parts|
    ensures LoadOf(parts[i := p], node) == LoadOf(parts, node) + Contrib(p, node) - Contrib(parts[i], node)
  {
    var n := |parts| - 1;
    if i < n {
      LoadUpdate(parts[..n], i, p, node);
      assert parts[i := p][..n] == parts[..n][i := p];
    } else {
      assert parts[i := p][..n] == parts[..n];
    }
  }

  // ----- kept copies -----

  /** How many of the nodes are not being moved off. */
  function CountKept(s: seq<string>, drained: set<string>, evict: seq<string>): (n: nat)
    ensures n <= |s|
  {
    if s == [] then 0
    else CountKept(s[..|s| - 1], drained, evict) + (if s[|s| - 1] in drained || s[|s| - 1] in evict then 0 else 1)
  }

  /** In-sync copies that are to stay. */
  function KeptInSync(p: Part, drained: set<string>): nat {
    CountKept((if p.leader != "" then [p.leader] else []) + p.followers, drained, p.evict)
  }

  lemma CountKeptAppend(s: seq<string>, x: string, drained: set<string>, evict: seq<string>)
    ensures CountKept(s + [x], drained, evict) ==
      CountKept(s, drained, evict) + (if x in drained || x in evict then 0 else 1)
  {
    assert (s + [x])[..|s|] == s;
  }

  lemma {:induction false} CountKeptConcat(a: seq<string>, b: seq<string>, drained: set<string>, evict: seq<string>)
    ensures CountKept(a + b, drained, evict) == CountKept(a, drained, evict) + CountKept(b, drained, evict)
    decreases |b|
  {
    if b == [] {
      assert a + b == a;
    } else {
      assert (a + b)[..|a + b| - 1] == a + b[..|b| - 1];
      CountKeptConcat(a, b[..|b| - 1], drained, evict);
    }
  }

  lemma {:induction false} CountKeptRemoved(s: seq<string>, x: string, drained: set<string>, evict: seq<string>)
    requires Distinct(s)
    ensures CountKept(Removed(s, x), drained, evict) ==
      CountKept(s, drained, evict) - (if x in s && x !in drained && x !in evict then 1 else 0)
  {
    if s == [] {
    } else {
      var n := |s| - 1;
      assert Distinct(s[..n]) && s[n] !in s[..n];
      hide Distinct;
      CountKeptRemoved(s[..n], x, drained, evict);
      if s[n] != x {
        CountKeptAppend(Removed(s[..n], x), s[n], drained, evict);
      }
    }
  }

  lemma {:induction false} CountKeptAll(s: seq<string>, drained: set<string>, evict: seq<string>)
    ensures CountKept(s, drained, evict) == |s| <==> forall n :: n in s ==> n !in drained && n !in evict
    ensures CountKept(s, drained, evict) > 0 <==> exists n :: n in s && n !in drained && n !in evict
  {
    if s == [] {
    } else {
      CountKeptAll(s[..|s| - 1], drained, evict);
    }
  }

  /** Which nodes are marked for eviction matters only as far as they are in the list. */
  lemma {:induction false} CountKeptEvict(s: seq<string>, drained: set<string>, evict: seq<string>, evict': seq<string>)
    requires forall n :: n in s ==> (n in evict <==> n in evict')
    ensures CountKept(s, drained, evict') == CountKept(s, drained, evict)
  {
    if s == [] {
    } else {
      CountKeptEvict(s[..|s| - 1], drained, evict, evict');
    }
  }

  // ----- whole layouts -----

  function NextParts(l: Layout): seq<Part> { if l.resharding.Some? then l.resharding.value.parts else [] }

  ghost predicate PartsOk(parts: seq<Part>, members: set<string>) {
    forall i :: 0 <= i < |parts| ==> parts[i].id == i && PartOk(parts[i], members)
  }

  ghost predicate PartsOrphanable(parts: seq<Part>, members: set<string>) {
    forall i :: 0 <= i < |parts| ==> parts[i].id == i && Orphanable(parts[i], members)
  }

  /** Everything but the partitions themselves. */
  ghost predicate Framed(l: Layout) {
    && "" !in l.members && l.count == |l.parts| && l.generation >= 0 && (l.count > 0 ==> l.generation >= 1)
    && (l.resharding.Some? ==> l.count > 0 && NextRoutable(l.resharding.value) && l.resharding.value.generation == l.generation + 1)
  }

  ghost predicate WellFormed(l: Layout) {
    Framed(l) && PartsOk(l.parts, l.members.Keys) && PartsOk(NextParts(l), l.members.Keys)
  }

  /** A layout whose members were just brought up to date. */
  ghost predicate Pruned(l: Layout) {
    Framed(l) && PartsOrphanable(l.parts, l.members.Keys) && PartsOrphanable(NextParts(l), l.members.Keys)
  }

  /** The load map says for each eligible node how many copies it keeps, in both generations. */
  ghost predicate Exact(l: Layout, eligible: seq<string>, load: map<string, int>) {
    forall n :: n in eligible ==> n in load && load[n] == LoadOf(l.parts, n) + LoadOf(NextParts(l), n)
  }

  function WithParts(l: Layout, parts: seq<Part>, next: seq<Part>): Layout {
    l.(parts := parts, resharding := if l.resharding.Some? then Some(l.resharding.value.(parts := next)) else None)
  }

  /** l' has the same partitions as l, each the same or with a later leadership. */
  ghost predicate PartsLater(a: seq<Part>, b: seq<Part>) {
    |a| == |b| && forall i :: 0 <= i < |a| ==> Later(a[i], b[i])
  }

  function Incarnation(members: map<string, int>, node: string): Option<int> {
    if node in members then Some(members[node]) else None
  }

  /** A partition that stays keeps the rules of leadership; within an epoch its leader is the same incarnation. */
  ghost predicate LaterIn(l: Layout, l': Layout, p: Part, p': Part) {
    && Later(p, p')
    && (p'.epoch == p.epoch && p'.leader != "" ==> Incarnation(l'.members, p'.leader) == Incarnation(l.members, p'.leader))
  }

  /** Partitions that stay keep the rules of leadership, and partitions that go never come back. */
  ghost predicate Evolves(l: Layout, l': Layout) {
    && l.generation <= l'.generation
    && forall ref :: Find(Some(l), ref).Some? ==>
         if Find(Some(l'), ref).Some? then LaterIn(l, l', Find(Some(l), ref).value, Find(Some(l'), ref).value)
         else ref.generation < l'.generation
  }

  lemma EvolvesTrans(a: Layout, b: Layout, c: Layout)
    requires Evolves(a, b) && Evolves(b, c)
    requires forall ref :: Find(Some(c), ref).Some? ==> ref.generation >= c.generation
    ensures Evolves(a, c)
  {
    hide Find;
    forall ref | Find(Some(a), ref).Some?
      ensures if Find(Some(c), ref).Some? then LaterIn(a, c, Find(Some(a), ref).value, Find(Some(c), ref).value) else ref.generation < c.generation
    {
      assert Find(Some(b), ref).Some? || ref.generation < b.generation;
    }
  }

  lemma FramedFinds(l: Layout)
    requires Framed(l)
    ensures forall ref :: Find(Some(l), ref).Some? ==> ref.generation >= l.generation
  {}

  lemma PartsEvolve(l: Layout, parts: seq<Part>, next: seq<Part>)
    requires Framed(l) && PartsLater(l.parts, parts) && PartsLater(NextParts(l), next)
    ensures Framed(WithParts(l, parts, next)) && Evolves(l, WithParts(l, parts, next))
  {}

  // ----- counting -----

  function LeaderCount(parts: seq<Part>, node: string): nat {
    if parts == [] then 0
    else LeaderCount(parts[..|parts| - 1], node) + (if parts[|parts| - 1].leader == node then 1 else 0)
  }

  lemma LeaderCountAppend(parts: seq<Part>, p: Part, node: string)
    ensures LeaderCount(parts + [p], node) == LeaderCount(parts, node) + (if p.leader == node then 1 else 0)
  {
    assert (parts + [p])[..|parts|] == parts;
  }

  /** A duplicate-free list whose members all occur in another one is not longer. */
  lemma {:induction false} NoLonger(a: seq<string>, b: seq<string>)
    requires Distinct(a) && forall n :: n in a ==> n in b
    ensures |a| <= |b|
    decreases |a|
  {
    if a == [] {
    } else {
      var m := |a| - 1;
      var rest := Removed(b, a[m]);
      assert a[m] in a && a[m] !in a[..m];
      RemovedShorter(b, a[m]);
      NoLonger(a[..m], rest);
    }
  }

  lemma {:induction false} RemovedShorter(s: seq<string>, x: string)
    requires x in s
    ensures |Removed(s, x)| < |s|
  {
    var n := |s| - 1;
    if s[n] != x {
      RemovedShorter(s[..n], x);
    }
  }

  // ----- how uneven the load is -----

  function Total(ns: seq<string>, load: map<string, int>): int
    requires forall n :: n in ns ==> n in load
  {
    if ns == [] then 0 else Total(ns[..|ns| - 1], load) + load[ns[|ns| - 1]]
  }

  function Squares(ns: seq<string>, load: map<string, int>): int
    requires forall n :: n in ns ==> n in load
  {
    if ns == [] then 0 else Squares(ns[..|ns| - 1], load) + load[ns[|ns| - 1]] * load[ns[|ns| - 1]]
  }

  lemma {:induction false} SumsChange(ns: seq<string>, load: map<string, int>, x: string, v: int)
    requires Distinct(ns) && forall n :: n in ns ==> n in load
    ensures Total(ns, load[x := v]) == Total(ns, load) + (if x in ns then v - load[x] else 0)
    ensures Squares(ns, load[x := v]) == Squares(ns, load) + (if x in ns then v * v - load[x] * load[x] else 0)
  {
    if ns == [] {
    } else {
      var m := |ns| - 1;
      assert ns[m] !in ns[..m];
      SumsChange(ns[..m], load, x, v);
    }
  }

  /** Moving one copy from a node to one with at least two fewer makes the load more even. */
  lemma MoveEvens(ns: seq<string>, load: map<string, int>, from: string, to: string)
    requires Distinct(ns) && (forall n :: n in ns ==> n in load) && from in ns && to in ns
    requires load[from] - load[to] >= 2
    ensures var load' := load[to := load[to] + 1][from := load[from] - 1];
      Total(ns, load') == Total(ns, load) && Squares(ns, load') <= Squares(ns, load) - 2
  {
    var up := load[to := load[to] + 1];
    SumsChange(ns, load, to, load[to] + 1);
    SumsChange(ns, up, from, load[from] - 1);
    var a, b := load[from], load[to];
    assert (b + 1) * (b + 1) - b * b == 2 * b + 1;
    assert (a - 1) * (a - 1) - a * a == 1 - 2 * a;
  }

  // ----- stability -----

  function Desired(config: Config, eligible: nat): (d: nat)
    ensures d <= eligible && (eligible > 0 ==> d >= 1)
    ensures 1 <= config.factor <= eligible ==> d == config.factor
    ensures config.factor < 1 ==> d <= 1
    ensures config.factor >= eligible ==> d == eligible || eligible == 0
  {
    var desired := if config.factor < 1 then 1 else config.factor;
    if desired > eligible then eligible else desired
  }

  /** Exactly the desired copies, all in sync, none being moved off. */
  predicate StablePart(p: Part, desired: nat, drained: set<string>) {
    && p.leader != "" && p.state == Active && p.joining == [] && p.evict == [] && 1 + |p.followers| == desired
    && p.leader !in drained && forall f :: f in p.followers ==> f !in drained
  }

  /** No two nodes differ by two or more, in copies or in leaderships. */
  predicate Balanced(l: Layout, drained: set<string>) {
    forall a, b :: a in l.members.Keys - drained && b in l.members.Keys - drained ==>
      LoadOf(l.parts, a) - LoadOf(l.parts, b) < 2 && LeaderCount(l.parts, a) - LeaderCount(l.parts, b) < 2
  }

  predicate StableLayout(l: Layout, config: Config, drained: set<string>, autoBalance: bool) {
    && l.count != 0 && l.resharding.None? && (config.count <= 0 || config.count == l.count)
    && (forall i :: 0 <= i < |l.parts| ==> StablePart(l.parts[i], Desired(config, |l.members.Keys - drained|), drained))
    && (autoBalance ==> Balanced(l, drained))
  }

  /** A duplicate-free list has as many entries as members. */
  lemma {:induction false} DistinctSize(s: seq<string>, all: set<string>)
    requires Distinct(s) && forall n :: n in s <==> n in all
    ensures |s| == |all|
    decreases |s|
  {
    if s != [] {
      var m := |s| - 1;
      assert s[m] in s && s[m] !in s[..m];
      DistinctSize(s[..m], all - {s[m]});
    } else {
      assert all == {};
    }
  }
}
