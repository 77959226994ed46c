/** All the ways a layout changes, and what holds over whole histories of layouts. */
module Rounds {
  import opened Ops
  import opened Replica
  import opened Layouts
  import opened Placement
  import opened Planning
  import LM = LogMatching
  import H = Handoffs

  /** What a request to change the layout leads to. */
  datatype Outcome = Changed(l: Layout) | Unchanged | Refused

  function Put(l: Layout, ref: Ref, p: Part): Layout
    requires Find(Some(l), ref).Some?
  {
    if ref.generation == l.generation && 0 <= ref.id < |l.parts| then l.(parts := l.parts[ref.id := p])
    else l.(resharding := Some(l.resharding.value.(parts := l.resharding.value.parts[ref.id := p])))
  }

  /** Replacing one partition by a well-formed one with the same or a later leadership. */
  lemma PutOk(l: Layout, ref: Ref, p: Part)
    requires WellFormed(l) && Find(Some(l), ref).Some? && PartOk(p, l.members.Keys) && Later(Find(Some(l), ref).value, p)
    ensures WellFormed(Put(l, ref, p)) && Evolves(l, Put(l, ref, p))
    ensures Find(Some(Put(l, ref, p)), ref) == Some(p)
    ensures forall r :: r != ref ==> Find(Some(Put(l, ref, p)), r) == Find(Some(l), r)
  {
    hide PartOk;
  }

  lemma FindOk(l: Layout, ref: Ref)
    requires WellFormed(l) && Find(Some(l), ref).Some?
    ensures PartOk(Find(Some(l), ref).value, l.members.Keys)
  {
    hide PartOk;
  }

  // ----- requests of an administrator -----

  /** The partition a request names; generation zero stands for the current one. */
  function Named(l: Layout, req: Ref): Ref { if req.generation == 0 then Ref(l.generation, req.id) else req }

  function Asked(l: Layout, req: Ref): Option<Part> { Find(Some(l), Named(l, req)) }

  /** Hands the leadership to an in-sync follower and pins the partition. */
  method TransferLeader(l: Layout, req: Ref, node: string, now: int) returns (r: Outcome)
    requires WellFormed(l)
    ensures r.Changed? ==> WellFormed(r.l) && Evolves(l, r.l)
    ensures r.Changed? <==>
      && node != "" && Asked(l, req).Some?
      && var p := Asked(l, req).value; p.leader != node && p.state != HandingOff && node in p.followers
    ensures r == Unchanged <==> node != "" && Asked(l, req).Some? && Asked(l, req).value.leader == node
    ensures r.Changed? ==> r.l == Put(l, Named(l, req), HandingTo(Asked(l, req).value, node, now, l.version).(pinned := true))
  {
    hide WellFormed, Evolves, PartOk;
    var ref := Named(l, req);
    if node == "" || Find(Some(l), ref).None? {
      return Refused;
    }
    var p := Find(Some(l), ref).value;
    if p.leader == node {
      return Unchanged;
    }
    if p.state == HandingOff || node !in p.followers {
      return Refused;
    }
    var q := HandingTo(p, node, now, l.version).(pinned := true);
    FindOk(l, ref);
    PinnedOk(p, node, now, l.version, l.members.Keys);
    PutOk(l, ref, q);
    r := Changed(Put(l, ref, q));
  }

  lemma PinnedOk(p: Part, node: string, now: int, version: int, members: set<string>)
    requires PartOk(p, members) && node in p.followers
    ensures PartOk(HandingTo(p, node, now, version).(pinned := true), members)
  {}

  /** Lets a new copy join and marks the old one for eviction; the partition is pinned. */
  method MoveCopy(l: Layout, req: Ref, from: string, to: string) returns (r: Outcome)
    requires WellFormed(l)
    ensures r.Changed? ==> WellFormed(r.l) && Evolves(l, r.l)
    ensures r.Changed? <==>
      && from != "" && to != "" && Asked(l, req).Some? && Asked(l, req).value.Has(from)
      && !Asked(l, req).value.Has(to) && to in l.members && l.members[to] != 0
    ensures r.Changed? ==>
      var p := Asked(l, req).value;
      r.l == Put(l, Named(l, req), p.(joining := p.joining + [to], evict := if from in p.evict then p.evict else p.evict + [from], pinned := true))
    ensures r != Unchanged
  {
    hide WellFormed, Evolves, PartOk;
    var ref := Named(l, req);
    if from == "" || to == "" || Find(Some(l), ref).None? {
      return Refused;
    }
    var p := Find(Some(l), ref).value;
    if !p.Has(from) || p.Has(to) || to !in l.members || l.members[to] == 0 {
      return Refused;
    }
    var q := p.(joining := p.joining + [to]);
    if from !in p.evict {
      q := q.(evict := p.evict + [from]);
    }
    q := q.(pinned := true);
    FindOk(l, ref);
    MovedOk(p, from, to, l.members.Keys);
    PutOk(l, ref, q);
    r := Changed(Put(l, ref, q));
  }

  lemma MovedOk(p: Part, from: string, to: string, members: set<string>)
    requires PartOk(p, members) && from != "" && to in members && p.Has(from) && !p.Has(to)
    ensures PartOk(p.(joining := p.joining + [to], evict := if from in p.evict then p.evict else p.evict + [from], pinned := true), members)
  {}

  method Unpin(l: Layout, req: Ref) returns (r: Outcome)
    requires WellFormed(l)
    ensures r.Changed? <==> Asked(l, req).Some? && Asked(l, req).value.pinned
    ensures r == Refused <==> Asked(l, req).None?
    ensures r.Changed? ==> WellFormed(r.l) && Evolves(l, r.l) && r.l == Put(l, Named(l, req), Asked(l, req).value.(pinned := false))
  {
    hide WellFormed, Evolves, PartOk;
    var ref := Named(l, req);
    if Find(Some(l), ref).None? {
      return Refused;
    }
    if !Find(Some(l), ref).value.pinned {
      return Unchanged;
    }
    var q := Find(Some(l), ref).value.(pinned := false);
    FindOk(l, ref);
    assert PartOk(q, l.members.Keys) by { UnpinnedOk(Find(Some(l), ref).value, l.members.Keys); }
    PutOk(l, ref, q);
    r := Changed(Put(l, ref, q));
  }

  lemma UnpinnedOk(p: Part, members: set<string>)
    requires PartOk(p, members)
    ensures PartOk(p.(pinned := false), members)
  {}

  // ----- progress of a resharding -----

  /** A pull that succeeded: its target and the sources, with the epochs it relied on. */
  datatype PullResult = PullResult(generation: int, id: nat, leader: string, epoch: int, sources: seq<(nat, int)>)

  /** Nothing the pull relied on has changed. */
  predicate StillValid(l: Layout, pulled: PullResult) {
    && l.resharding.Some? && l.resharding.value.generation == pulled.generation
    && pulled.id < |l.resharding.value.parts| && pulled.id < |l.resharding.value.status|
    && l.resharding.value.parts[pulled.id].leader == pulled.leader && l.resharding.value.parts[pulled.id].epoch == pulled.epoch
    && forall i :: 0 <= i < |pulled.sources| ==>
         pulled.sources[i].0 < |l.parts| && l.parts[pulled.sources[i].0].epoch == pulled.sources[i].1
  }

  /** Marks the target of a successful pull as done, unless a leader changed meanwhile. */
  method CommitTarget(l: Layout, pulled: PullResult) returns (r: Outcome)
    requires WellFormed(l)
    ensures r == if StillValid(l, pulled) then Changed(RouteNext(l, MarkDone(pulled.id))) else Refused
    ensures r.Changed? <==>
      && l.resharding.Some? && l.resharding.value.generation == pulled.generation && pulled.id < l.resharding.value.count
      && l.resharding.value.parts[pulled.id].leader == pulled.leader && l.resharding.value.parts[pulled.id].epoch == pulled.epoch
      && forall i :: 0 <= i < |pulled.sources| ==>
           pulled.sources[i].0 < |l.parts| && l.parts[pulled.sources[i].0].epoch == pulled.sources[i].1
    ensures r.Changed? ==> WellFormed(r.l) && Evolves(l, r.l)
  {
    hide PartOk;
    if l.resharding.None? || l.resharding.value.generation != pulled.generation {
      return Refused;
    }
    var next := l.resharding.value;
    if pulled.id >= next.count || next.parts[pulled.id].leader != pulled.leader || next.parts[pulled.id].epoch != pulled.epoch {
      return Refused;
    }
    for i := 0 to |pulled.sources|
      invariant forall j :: 0 <= j < i ==>
        pulled.sources[j].0 < |l.parts| && l.parts[pulled.sources[j].0].epoch == pulled.sources[j].1
    {
      if pulled.sources[i].0 >= |l.parts| || l.parts[pulled.sources[i].0].epoch != pulled.sources[i].1 {
        return Refused;
      }
    }
    r := Changed(l.(resharding := Some(next.(status := next.status[pulled.id := Done]))));
  }

  /** Once all targets are done the next generation becomes the current one. */
  method FinishResharding(l: Layout, generation: int) returns (r: Outcome)
    requires WellFormed(l)
    ensures r == if l.resharding.Some? && l.resharding.value.generation == generation && AllDone(l.resharding.value)
                 then Changed(RouteNext(l, Finish)) else Unchanged
    ensures r.Changed? ==> WellFormed(r.l) && Evolves(l, r.l)
  {
    hide PartOk;
    if l.resharding.None? || l.resharding.value.generation != generation {
      return Unchanged;
    }
    var next := l.resharding.value;
    for i := 0 to |next.status|
      invariant forall j :: 0 <= j < i ==> next.status[j] == Done
    {
      if next.status[i] != Done {
        return Unchanged;
      }
    }
    r := Changed(l.(generation := next.generation, count := next.count, parts := next.parts, resharding := None));
  }

  // ----- histories of layouts -----

  /** Accepted layouts: each well-formed, one version after the one before and evolved from it. */
  ghost predicate History(ls: seq<Layout>) {
    && (forall i :: 0 <= i < |ls| ==> WellFormed(ls[i]))
    && (forall i :: 0 <= i < |ls| - 1 ==> Evolves(ls[i], ls[i + 1]) && ls[i + 1].version == ls[i].version + 1)
  }

  lemma {:induction false} HistoryEvolves(ls: seq<Layout>, i: nat, j: nat)
    requires History(ls) && i <= j < |ls|
    ensures Evolves(ls[i], ls[j])
    decreases j - i
  {
    hide Evolves, WellFormed;
    if i == j {
      Planner.NothingEvolves(ls[i]);
    } else {
      HistoryEvolves(ls, i, j - 1);
      Planner.WellFormedFinds(ls[j]);
      EvolvesTrans(ls[i], ls[j - 1], ls[j]);
    }
  }

  /**
   * In any history, across reshardings, a partition's epochs never decrease and an epoch never
   * has two leaders, not even two incarnations of the same node.
   */
  lemma OneLeaderPerEpoch(ls: seq<Layout>, i: nat, j: nat, ref: Ref)
    requires History(ls) && i <= j < |ls| && Find(Some(ls[i]), ref).Some? && Find(Some(ls[j]), ref).Some?
    ensures var p, q := Find(Some(ls[i]), ref).value, Find(Some(ls[j]), ref).value;
      && p.epoch <= q.epoch
      && (p.epoch == q.epoch && p.leader != "" && q.leader != "" ==>
            p.leader == q.leader && Incarnation(ls[i].members, p.leader) == Incarnation(ls[j].members, q.leader))
  {
    HistoryEvolves(ls, i, j);
  }

  /** Partitions of a generation that was replaced never come back. */
  lemma GoneForGood(ls: seq<Layout>, i: nat, j: nat, k: nat, ref: Ref)
    requires History(ls) && i <= j <= k < |ls|
    requires Find(Some(ls[i]), ref).Some? && Find(Some(ls[j]), ref).None?
    ensures Find(Some(ls[k]), ref).None?
  {
    hide WellFormed;
    HistoryEvolves(ls, i, j);
    HistoryEvolves(ls, j, k);
    Planner.WellFormedFinds(ls[k]);
  }

  /**
   * A pull planned on one layout and committed on a later one of the same history: accepted exactly
   * if the same resharding is under way and neither the target's leadership nor the epoch of any
   * source changed; then each of these partitions has the same leader, in the same incarnation,
   * wherever both layouts name one.
   */
  method CommitLater(ls: seq<Layout>, i: nat, j: nat, id: nat, sources: seq<nat>) returns (r: Outcome)
    requires History(ls) && i <= j < |ls| && ls[i].resharding.Some? && id < |ls[i].resharding.value.parts|
    requires forall x :: 0 <= x < |sources| ==> sources[x] < |ls[i].parts|
    ensures r.Changed? <==>
      && ls[j].resharding.Some? && ls[j].resharding.value.generation == ls[i].resharding.value.generation && id < |ls[j].resharding.value.parts|
      && ls[j].resharding.value.parts[id].leader == ls[i].resharding.value.parts[id].leader
      && ls[j].resharding.value.parts[id].epoch == ls[i].resharding.value.parts[id].epoch
      && forall x :: 0 <= x < |sources| ==> sources[x] < |ls[j].parts| && ls[j].parts[sources[x]].epoch == ls[i].parts[sources[x]].epoch
    ensures r.Changed? ==> ls[j].generation == ls[i].generation && r.l == RouteNext(ls[j], MarkDone(id))
    ensures r.Changed? ==> forall x :: 0 <= x < |sources| ==>
      var p, q := ls[i].parts[sources[x]], ls[j].parts[sources[x]];
      && q.epoch == p.epoch
      && (p.leader != "" && q.leader != "" ==> q.leader == p.leader && Incarnation(ls[j].members, q.leader) == Incarnation(ls[i].members, p.leader))
    ensures r.Changed? ==>
      var p, q := ls[i].resharding.value.parts[id], ls[j].resharding.value.parts[id];
      && q.epoch == p.epoch && q.leader == p.leader
      && (p.leader != "" ==> Incarnation(ls[j].members, q.leader) == Incarnation(ls[i].members, p.leader))
  {
    hide PartOk, Evolves;
    var l := ls[i];
    var target := l.resharding.value.parts[id];
    var epochs: seq<(nat, int)> := [];
    for x := 0 to |sources|
      invariant |epochs| == x && forall y :: 0 <= y < x ==> epochs[y] == (sources[y], l.parts[sources[y]].epoch)
    {
      epochs := epochs + [(sources[x], l.parts[sources[x]].epoch)];
    }
    assert WellFormed(ls[j]) && WellFormed(l);
    r := CommitTarget(ls[j], PullResult(l.resharding.value.generation, id, target.leader, target.epoch, epochs));
    if r.Changed? {
      assert forall x :: 0 <= x < |sources| ==> epochs[x].0 == sources[x];
      forall x | 0 <= x < |sources|
        ensures var p, q := l.parts[sources[x]], ls[j].parts[sources[x]];
          p.leader != "" && q.leader != "" ==> q.leader == p.leader && Incarnation(ls[j].members, q.leader) == Incarnation(l.members, p.leader)
      {
        OneLeaderPerEpoch(ls, i, j, Ref(l.generation, sources[x]));
      }
      OneLeaderPerEpoch(ls, i, j, Ref(l.generation + 1, id));
    }
  }

  // ----- every run -----

  const NOTHING := Layout(0, 0, 0, [], None, map[])

  /** Whatever makes a controller write a new layout. */
  datatype Action =
    | Round(input: Input)
    | Transfer(req: Ref, node: string, now: int)
    | Move(req: Ref, from: string, to: string)
    | Release(req: Ref)
    | Commit(pulled: PullResult)
    | Complete(generation: int)

  /** Carries out one action on a copy of the layout that already has the next version number. */
  method Mutate(l: Layout, action: Action) returns (r: Outcome)
    requires WellFormed(l) && (action.Round? ==> "" !in action.input.nodes)
    ensures r.Changed? ==> WellFormed(r.l) && Evolves(l, r.l) && r.l.version == l.version
    ensures r.Changed? ==> forall ref :: Find(Some(r.l), ref).Some? ==> MovesAs(action, l, r.l, ref)
  {
    hide WellFormed, Evolves, Find, Put, MovesAs, AllSucceed, Before, Exact, Planner.Ready;
    match action
    case Round(input) =>
      var p := new Planner(input, l);
      p.Plan();
      RoundMoves(input, l, p.l);
      r := Changed(p.l);
    case Transfer(req, node, now) =>
      r := TransferLeader(l, req, node, now);
      PutMoves(action, l, Named(l, req));
    case Move(req, from, to) =>
      r := MoveCopy(l, req, from, to);
      PutMoves(action, l, Named(l, req));
    case Release(req) =>
      r := Unpin(l, req);
      PutMoves(action, l, Named(l, req));
    case Commit(pulled) =>
      r := CommitTarget(l, pulled);
      RouteMoves(action, l);
    case Complete(generation) =>
      r := FinishResharding(l, generation);
      RouteMoves(action, l);
  }

  /** The leadership and the handoff stay, or a handoff starts in this version. */
  ghost predicate Stays(version: int, a: Part, b: Part) {
    b.epoch == a.epoch && b.leader == a.leader && (SameHandoff(a, b) || b.handoffVersion == version)
  }

  /** What an action does to the leadership of a partition. */
  ghost predicate MovesAs(action: Action, l: Layout, l': Layout, ref: Ref)
    requires Find(Some(l'), ref).Some?
  {
    var was, b := Find(Some(l), ref), Find(Some(l'), ref).value;
    if was.Some? then
      if action.Round? then l'.members == action.input.nodes && Succeeds(action.input, l.members, l.version, ref, was.value, b)
      else l'.members == l.members && Stays(l.version, was.value, b)
    else
      action.Round? && (JustPlaced(b) || Succeeds(action.input, l.members, l.version, ref, Unassigned(ref.id), b))
  }

  lemma RoundMoves(input: Input, l: Layout, l': Layout)
    requires WellFormed(l) && WellFormed(l') && l'.members == input.nodes && l'.version == l.version
    requires l.count > 0 ==> l'.count == l.count && l'.generation == l.generation
    requires l.resharding.Some? ==> l'.resharding.Some?
    requires AllSucceed(input, l.members, l'.version, l'.generation, Before(l, |l'.parts|), l'.parts)
    requires l.resharding.None? && l'.resharding.Some? ==> forall i :: 0 <= i < |NextParts(l')| ==> JustPlaced(NextParts(l')[i])
    requires l.resharding.Some? ==> AllSucceed(input, l.members, l'.version, l'.generation + 1, NextParts(l), NextParts(l'))
    ensures forall ref :: Find(Some(l'), ref).Some? ==> MovesAs(Round(input), l, l', ref)
  {
    hide PartOk, Succeeds;
    forall ref | Find(Some(l'), ref).Some?
      ensures MovesAs(Round(input), l, l', ref)
    {
      if ref.generation == l'.generation {
        assert ref == Ref(l'.generation, ref.id);
      } else {
        assert ref == Ref(l'.generation + 1, ref.id);
      }
    }
  }

  lemma PutMoves(action: Action, l: Layout, ref: Ref)
    requires !action.Round?
    ensures Find(Some(l), ref).Some? ==> forall p :: Put(l, ref, p).version == l.version
    ensures Find(Some(l), ref).Some? ==> forall p, r :: Stays(l.version, Find(Some(l), ref).value, p) && Find(Some(Put(l, ref, p)), r).Some? ==>
      MovesAs(action, l, Put(l, ref, p), r)
  {}

  lemma RouteMoves(action: Action, l: Layout)
    requires WellFormed(l) && !action.Round?
    ensures forall step: RouteStep, r :: (step.MarkDone? || step.Finish?) && RouteEnabled(l, step) && Find(Some(RouteNext(l, step)), r).Some? ==>
      MovesAs(action, l, RouteNext(l, step), r)
  {
    hide PartOk;
  }

  /** Any sequence of actions, from nothing: the accepted layouts form a history. */
  method RunAll(actions: seq<Action>) returns (ls: seq<Layout>)
    requires forall i :: 0 <= i < |actions| && actions[i].Round? ==> "" !in actions[i].input.nodes
    ensures |ls| > 0 && ls[0] == NOTHING && History(ls)
  {
    hide WellFormed, Evolves;
    ls := [NOTHING];
    NothingFormed();
    for i := 0 to |actions|
      invariant |ls| > 0 && ls[0] == NOTHING && History(ls)
    {
      var current := ls[|ls| - 1];
      var next := current.(version := current.version + 1);
      NewVersion(current);
      var r := Mutate(next, actions[i]);
      if r.Changed? && r.l.(version := current.version) != current {
        VersionEvolves(current, r.l);
        ls := ls + [r.l];
      }
    }
  }

  lemma NothingFormed()
    ensures WellFormed(NOTHING)
  {}

  lemma NewVersion(l: Layout)
    requires WellFormed(l)
    ensures WellFormed(l.(version := l.version + 1))
  {
    hide PartOk;
  }

  lemma VersionEvolves(l: Layout, l': Layout)
    requires Evolves(l.(version := l.version + 1), l')
    ensures Evolves(l, l')
  {
    assert forall ref :: Find(Some(l.(version := l.version + 1)), ref) == Find(Some(l), ref);
  }

  // ----- changes of the layout as steps of the handoff protocol -----

  /** The replica a node of the layout would hold: the node in the incarnation the layout knows. */
  function IdOf(members: map<string, int>, node: string): LM.Id {
    if node != "" && node in members then LM.Node(node, members[node]) else LM.Nobody
  }

  function AssignOf(members: map<string, int>, p: Part): H.Assign {
    H.Assign(p.epoch, IdOf(members, p.leader), set n | n in p.Holders() :: IdOf(members, n),
             if p.state == HandingOff
             then Some(H.Handoff(IdOf(members, p.handoffTo), if p.handoffVersion >= 0 then p.handoffVersion else 0)) else None)
  }

  /** What a layout says about a partition; nothing before it exists. */
  function AssignIn(l: Layout, ref: Ref): H.Assign {
    if Find(Some(l), ref).Some? then AssignOf(l.members, Find(Some(l), ref).value) else H.NOBODY
  }

  /** What the round was told about the partition by a known incarnation was really reported. */
  ghost predicate Reported(w: H.World, input: Input, members: map<string, int>, ref: Ref) {
    forall n :: Alive(input, members, n) && input.StatusOf(n, ref).Some? ==>
      exists r :: r in w.reports && Reports(r, input, members, n, ref)
  }

  ghost predicate Reports(r: H.Report, input: Input, members: map<string, int>, n: string, ref: Ref) {
    && input.StatusOf(n, ref).Some? && r.id == IdOf(members, n) && r.version == input.status[n].layoutVersion
    && var st := input.StatusOf(n, ref).value;
       r.sealed == st.sealed && r.number == st.number && r.dataEpoch == st.dataEpoch
  }

  lemma LeaderHolds(members: map<string, int>, p: Part)
    requires PartOk(p, members.Keys)
    ensures AssignOf(members, p).leader != LM.Nobody ==> AssignOf(members, p).leader in AssignOf(members, p).holders
    ensures AssignOf(members, p).leader != LM.Nobody <==> p.leader != ""
    ensures AssignOf(members, p).handoff.Some? ==> p.leader != ""
  {
    hide Distinct, EvictsHolders;
    assert p.leader != "" ==> p.leader in p.Holders();
  }

  lemma SameId(input: Input, members: map<string, int>, n: string)
    requires Alive(input, members, n)
    ensures IdOf(input.nodes, n) == IdOf(members, n)
  {}

  /**
   * What a round does to a partition is a legal step of the handoff protocol. A node that restarts
   * is a new replica; a new epoch under a leader that is still alive is a completed handoff.
   */
  lemma RoundIsLegal(w: H.World, input: Input, members: map<string, int>, ref: Ref, a: Part, b: Part) returns (change: H.Change)
    requires Reported(w, input, members, ref) && PartOk(a, members.Keys) && PartOk(b, input.nodes.Keys)
    requires w.layouts != [] && w.layouts[H.Newest(w)] == AssignOf(members, a)
    requires Succeeds(input, members, |w.layouts|, ref, a, b)
    ensures H.Legal(w, AssignOf(input.nodes, b), change)
    ensures b.epoch == a.epoch + 1 && a.leader != "" && Alive(input, members, a.leader) ==> change.Complete?
  {
    hide PartOk, Reported, Alive;
    LeaderHolds(members, a);
    LeaderHolds(input.nodes, b);
    if Alive(input, members, a.leader) {
      SameId(input, members, a.leader);
    }
    if Alive(input, members, a.handoffTo) {
      SameId(input, members, a.handoffTo);
    }
    if b.epoch == a.epoch && b.leader == a.leader && (a.leader != "" ==> Alive(input, members, a.leader)) {
      change := H.Same;
      if a.leader == "" {
        NoLeaderIds(members, input.nodes, a.leader);
      }
    } else if b.epoch == a.epoch {
      change := H.Lost;
    } else if a.leader == "" || !Alive(input, members, a.leader) {
      change := H.Failover;
    } else {
      var leader := ReportOf(w, input, members, a.leader, ref);
      var target := ReportOf(w, input, members, a.handoffTo, ref);
      change := H.Complete(leader, target);
    }
  }

  /** The round was told this by a known incarnation of a node. */
  ghost predicate Received(input: Input, members: map<string, int>, ref: Ref, r: H.Report) {
    exists n :: Alive(input, members, n) && n != "" && Reports(r, input, members, n, ref)
  }

  /** The other way round: a timely round that was told enough completes the handoff. */
  lemma RoundCompletes(input: Input, members: map<string, int>, version: int, ref: Ref, a: Part, b: Part, leader: H.Report, target: H.Report)
    requires PartOk(a, members.Keys) && Succeeds(input, members, version, ref, a, b)
    requires Received(input, members, ref, leader) && Received(input, members, ref, target)
    requires H.MayComplete(AssignOf(members, a), leader, target) && input.now - a.handoffAt <= HANDOFF_TIMEOUT
    ensures AssignOf(input.nodes, b).epoch == a.epoch + 1 && AssignOf(input.nodes, b).leader == IdOf(members, a.handoffTo) != LM.Nobody
  {
    hide Distinct, EvictsHolders;
    var n :| Alive(input, members, n) && n != "" && Reports(leader, input, members, n, ref);
    var m :| Alive(input, members, m) && m != "" && Reports(target, input, members, m, ref);
    assert n == a.leader && m == a.handoffTo;
    SameId(input, members, m);
  }

  /**
   * From the states: once the old leader has applied the handoff and the target has caught up with
   * it, a timely round that polls both completes the handoff.
   */
  lemma CaughtUpHandoffCompletes(w: H.World, input: Input, members: map<string, int>, ref: Ref, a: Part, b: Part, u: nat, v: nat)
    requires H.Inv(w) && w.layouts[H.Newest(w)] == AssignOf(members, a) && PartOk(a, members.Keys) && a.state == HandingOff
    requires Succeeds(input, members, |w.layouts|, ref, a, b) && input.now - a.handoffAt <= HANDOFF_TIMEOUT
    requires var l, t := IdOf(members, a.leader), IdOf(members, a.handoffTo);
      && a.handoffVersion <= u <= H.SeenOf(w, l) && l in w.c.reps && t in w.c.reps
      && w.c.reps[t].dataEpoch == a.epoch && |LM.HistoryOf(w.c, t)| >= |LM.HistoryOf(w.c, l)|
      && Received(input, members, ref, H.Status(w, l, u)) && Received(input, members, ref, H.Status(w, t, v))
    ensures AssignOf(input.nodes, b).epoch == a.epoch + 1 && AssignOf(input.nodes, b).leader == IdOf(members, a.handoffTo) != LM.Nobody
  {
    hide H.Inv, Succeeds, Received, H.MayComplete;
    LeaderHolds(members, a);
    H.CaughtUpMayComplete(w, u, v);
    RoundCompletes(input, members, |w.layouts|, ref, a, b, H.Status(w, IdOf(members, a.leader), u), H.Status(w, IdOf(members, a.handoffTo), v));
  }

  lemma NoLeaderIds(a: map<string, int>, b: map<string, int>, leader: string)
    requires leader == ""
    ensures IdOf(a, leader) == IdOf(b, leader)
  {}

  lemma ReportOf(w: H.World, input: Input, members: map<string, int>, n: string, ref: Ref) returns (r: H.Report)
    requires Reported(w, input, members, ref) && Alive(input, members, n) && input.StatusOf(n, ref).Some?
    ensures r in w.reports && Reports(r, input, members, n, ref)
  {
    r :| r in w.reports && Reports(r, input, members, n, ref);
  }

  /**
   * Every change of a layout is, for every partition it has, a legal step of the handoff protocol:
   * rounds, requests, commits, generation switches and new partitions.
   */
  lemma ActionIsLegal(w: H.World, action: Action, l: Layout, l': Layout, ref: Ref) returns (change: H.Change)
    requires WellFormed(l) && WellFormed(l') && Find(Some(l'), ref).Some? && MovesAs(action, l, l', ref)
    requires action.Round? ==> l'.members == action.input.nodes && Reported(w, action.input, l.members, ref)
    requires w.layouts != [] && w.layouts[H.Newest(w)] == AssignIn(l, ref) && l.version == |w.layouts|
    ensures H.Legal(w, AssignIn(l', ref), change)
  {
    hide WellFormed, PartOk, Reported, Alive, Find;
    FindOk(l', ref);
    var b := Find(Some(l'), ref).value;
    LeaderHolds(l'.members, b);
    if Find(Some(l), ref).Some? {
      var a := Find(Some(l), ref).value;
      FindOk(l, ref);
      if action.Round? {
        change := RoundIsLegal(w, action.input, l.members, ref, a, b);
      } else {
        change := H.Same;
      }
    } else if JustPlaced(b) {
      change := H.Failover;
    } else {
      NeverAssigned(l, ref.id);
      change := RoundIsLegal(w, action.input, l.members, ref, Unassigned(ref.id), b);
    }
  }

  lemma NeverAssigned(l: Layout, id: int)
    requires WellFormed(l)
    ensures AssignOf(l.members, Unassigned(id)) == H.NOBODY && PartOk(Unassigned(id), l.members.Keys)
  {
    Planner.UnassignedOk(id, l.members.Keys);
  }
}
