/** What reports and answers say about the replicas they come from. */
module Evidence {
  import opened Ops
  import opened Wal
  import opened Replica
  import opened Partitions
  import opened Migration
  import opened Layouts
  import opened Placement
  import opened Planning
  import opened Rounds
  import LM = LogMatching
  import RS = Reshard

  // ----- reports -----

  /** Everything reported about the partition is what the replicas have. */
  ghost predicate TrueReports(input: Input, members: map<string, int>, ref: Ref, c: LM.Cluster) {
    forall n :: input.StatusOf(n, ref).Some? ==> TrueReport(input.StatusOf(n, ref).value, IdOf(members, n), c)
  }

  ghost predicate TrueReport(st: PartStatus, id: LM.Id, c: LM.Cluster) {
    && id in c.reps
    && var r := c.reps[id];
       && st.role == r.role && st.epoch == r.epoch && st.dataEpoch == r.dataEpoch
       && st.number == r.Seq() && st.synced == r.synced && st.sealed == r.sealed
  }

  /** Replicas with data of the same epoch have one history, of which they know more or less. */
  lemma SameEpochPrefix(c: LM.Cluster, f: LM.Id, g: LM.Id)
    requires LM.Inv(c) && f in c.reps && g in c.reps
    requires c.reps[f].dataEpoch == c.reps[g].dataEpoch && c.reps[f].Seq() <= c.reps[g].Seq()
    ensures LM.HistoryOf(c, f) <= LM.HistoryOf(c, g)
  {
    hide LM.OneEach, LM.FlightOk, Replay, Rep.Content;
    LM.GoodOf(c, f);
    LM.GoodOf(c, g);
    LM.FaithfulContent(c.reps[f], LM.HistoryOf(c, f));
    LM.FaithfulContent(c.reps[g], LM.HistoryOf(c, g));
  }

  /** Data belongs to a positive epoch; without one there is no data. */
  lemma EpochOfData(c: LM.Cluster, f: LM.Id)
    requires LM.Inv(c) && f in c.reps
    ensures c.reps[f].dataEpoch >= 0 && (c.reps[f].dataEpoch == 0 ==> LM.HistoryOf(c, f) == [])
  {
    hide LM.OneEach, LM.FlightOk, LM.Faithful;
    LM.GoodOf(c, f);
  }

  /**
   * Failover loses as little as it can: no equally eligible follower that reported data of a newer
   * epoch is passed over, all that such a follower with data of the same epoch has is in the history
   * of the new leader, and one that reported nothing is chosen only if these have nothing.
   */
  lemma FailoverKeepsMost(p: Planner, ref: Ref, part: Part, load: map<string, int>, best: string, f: string, members: map<string, int>, c: LM.Cluster)
    requires LM.Inv(c) && TrueReports(p.input, members, ref, c)
    requires p.Chosen(ref, part, load, best) && f in part.followers && (f in p.eligible <==> best in p.eligible)
    requires p.input.StatusOf(f, ref).Some?
    ensures IdOf(members, f) in c.reps
    ensures p.input.StatusOf(best, ref).None? ==> LM.HistoryOf(c, IdOf(members, f)) == []
    ensures p.input.StatusOf(best, ref).Some? ==>
      && IdOf(members, best) in c.reps
      && c.reps[IdOf(members, f)].dataEpoch <= c.reps[IdOf(members, best)].dataEpoch
      && (c.reps[IdOf(members, f)].dataEpoch == c.reps[IdOf(members, best)].dataEpoch ==>
            LM.HistoryOf(c, IdOf(members, f)) <= LM.HistoryOf(c, IdOf(members, best)))
  {
    hide LM.Inv;
    assert TrueReport(p.input.StatusOf(f, ref).value, IdOf(members, f), c);
    EpochOfData(c, IdOf(members, f));
    if p.input.StatusOf(best, ref).Some? {
      assert TrueReport(p.input.StatusOf(best, ref).value, IdOf(members, best), c);
      if c.reps[IdOf(members, f)].dataEpoch == c.reps[IdOf(members, best)].dataEpoch {
        SameEpochPrefix(c, IdOf(members, f), IdOf(members, best));
      }
    }
  }

  /**
   * A joiner becomes an in-sync follower exactly if it follows the leader of the epoch with data of
   * that epoch and at most 64 operations behind; all it has is then part of the leader's history.
   */
  lemma PromotedJoinerHolds(p: Planner, ref: Ref, part: Part, j: string, members: map<string, int>, c: LM.Cluster)
    requires LM.Inv(c) && TrueReports(p.input, members, ref, c) && part.leader != ""
    requires p.input.StatusOf(part.leader, ref).Some? && p.input.StatusOf(j, ref).Some?
    ensures var l, f := IdOf(members, part.leader), IdOf(members, j);
      p.CaughtUp(ref, part, j) <==>
        && LM.Leads(c, l) && c.reps[l].epoch == part.epoch
        && LM.Follows(c, f) && c.reps[f].synced && c.reps[f].dataEpoch == part.epoch
        && |LM.HistoryOf(c, l)| - |LM.HistoryOf(c, f)| <= 64
    ensures p.CaughtUp(ref, part, j) ==> LM.HistoryOf(c, IdOf(members, j)) <= LM.HistoryOf(c, IdOf(members, part.leader))
  {
    hide LM.OneEach, LM.FlightOk, Replay, Rep.Content;
    var l, f := IdOf(members, part.leader), IdOf(members, j);
    assert TrueReport(p.input.StatusOf(part.leader, ref).value, l, c);
    assert TrueReport(p.input.StatusOf(j, ref).value, f, c);
    LM.GoodOf(c, l);
    LM.GoodOf(c, f);
    LM.FaithfulContent(c.reps[l], LM.HistoryOf(c, l));
    LM.FaithfulContent(c.reps[f], LM.HistoryOf(c, f));
  }

  // ----- answers to a pull -----

  /**
   * Two answers of a source partition: a replica that leads takes a snapshot, and after any run of
   * the partition's replicas a replica that leads answers the freezing request.
   */
  datatype Exchange = Exchange(before: LM.Cluster, first: LM.Id, steps: seq<LM.Step>, after: LM.Cluster, second: LM.Id)

  ghost predicate Genuine(x: Exchange, accept: string -> bool, first: Chunk, second: Chunk) {
    && LM.Inv(x.before) && LM.Leads(x.before, x.first)
    && SnapshotAnswer(x.before.reps[x.first], accept, first)
    && LM.Run(LM.Next(x.before, LM.Write(x.first, Checkpoint, false)), x.steps, x.after)
    && LM.Leads(x.after, x.second)
    && Answered(x.after.reps[x.second], accept, true, first.number, second)
  }

  /** The history of the epoch at the second answer, with the checkpoint of a snapshot. */
  ghost function Seen(x: Exchange, second: Chunk): seq<Op> {
    LM.HistoryOf(x.after, x.second) + (if second.Full? then [Checkpoint] else [])
  }

  /** What the replica that gave the second answer held. */
  ghost function Answerer(x: Exchange): Data {
    if x.second in x.after.reps then x.after.reps[x.second].Content() else map[]
  }

  /** If both answers name the same epoch, the second replica's history continues the first one's. */
  lemma OneHistory(x: Exchange, accept: string -> bool, first: Chunk, second: Chunk)
    requires Genuine(x, accept, first, second) && first.epoch == second.epoch
    ensures LM.HistoryOf(x.before, x.first) + [Checkpoint] <= LM.HistoryOf(x.after, x.second)
    ensures first.number == |LM.HistoryOf(x.before, x.first)| + 1
    ensures first.Full? && first.data == Restrict(Replay(map[], LM.HistoryOf(x.before, x.first)), accept)
    ensures LM.Inv(x.after)
  {
    hide LM.OneEach, LM.FlightOk, Replay, Matching, Restrict;
    var c, l := x.before, x.first;
    var step := LM.Write(l, Checkpoint, false);
    LM.StepKeepsInv(c, step);
    LM.RunGrows(LM.Next(c, step), x.steps, x.after);
    LM.GoodOf(c, l);
    LM.GoodOf(x.after, x.second);
    LM.FaithfulContent(c.reps[l], LM.HistoryOf(c, l));
    assert LM.Next(c, step).epochs[first.epoch] == LM.HistoryOf(c, l) + [Checkpoint];
  }

  ghost function TruthIn(x: Exchange, id: int, first: Chunk, second: Chunk): Truth
    requires first.number >= 0 && second.number >= 0
  {
    Truth(id, map[], Seen(x, second), first.number, second.number)
  }

  /** So answers of the same epoch are honest answers about one history. */
  lemma SameEpochIsHonest(x: Exchange, id: int, accept: string -> bool, first: Chunk, second: Chunk)
    requires Genuine(x, accept, first, second) && first.epoch == second.epoch
    ensures 0 <= first.number <= second.number <= |Seen(x, second)| && Honest(TruthIn(x, id, first, second), accept, first, second)
    ensures Replay(map[], Seen(x, second)[..second.number]) == Answerer(x)
  {
    hide LM.Inv, LM.Run, Replay, Matching, Restrict, LM.Next;
    OneHistory(x, accept, first, second);
    var h, r := LM.HistoryOf(x.after, x.second), x.after.reps[x.second];
    LM.GoodOf(x.after, x.second);
    hide LM.Matches, LM.FlightOk;
    LM.FaithfulContent(r, h);
    FirstPicture(LM.HistoryOf(x.before, x.first), h, Seen(x, second), first.number);
    if second.Logs? {
      assert h + [] == h && h[..|h|] == h;
      LaterOps(r, h, first.number);
    } else {
      ReplayOne(map[], h, Checkpoint);
      assert (h + [Checkpoint])[..|h| + 1] == h + [Checkpoint];
    }
  }

  lemma FirstPicture(h0: seq<Op>, h: seq<Op>, seen: seq<Op>, n: int)
    requires h0 + [Checkpoint] <= h <= seen && n == |h0| + 1
    ensures Replay(map[], seen[..n]) == Replay(map[], h0)
  {
    assert seen[..n] == h0 + [Checkpoint];
    ReplayOne(map[], h0, Checkpoint);
  }

  lemma LaterOps(r: Rep, h: seq<Op>, n: int)
    requires LM.Faithful(r, h) && r.start <= n <= |h|
    ensures (if n < r.Seq() then r.ops[n - r.start..] else []) == h[n..|h|] && r.Seq() == |h|
  {
    hide Replay;
  }

  /**
   * A pull whose answers all name the epochs it asked for, as a successful one's do, leaves the target
   * with exactly what the leaders of those epochs had of its keys when they froze them.
   */
  lemma PulledFromEpochs(m: Data, sources: seq<Source>, xs: seq<Exchange>, owner: string -> int, accept: string -> bool, bulk: seq<Chunk>, frozen: seq<Chunk>)
    requires |xs| == |sources| && |bulk| == |sources| && |frozen| == |sources| && DistinctIds(sources)
    requires forall i :: 0 <= i < |sources| ==>
      && Genuine(xs[i], accept, bulk[i], frozen[i]) && bulk[i].epoch == sources[i].epoch && frozen[i].epoch == sources[i].epoch
      && OwnHistory(LM.HistoryOf(xs[i].after, xs[i].second), owner, sources[i].id)
    ensures forall i, k :: 0 <= i < |sources| && owner(k) == sources[i].id ==>
      Lookup(Pulled(m, bulk, frozen), k) == Lookup(Restrict(Answerer(xs[i]), accept), k)
    ensures forall k :: k in Pulled(m, bulk, frozen) ==> exists i :: 0 <= i < |sources| && owner(k) == sources[i].id
  {
    hide Genuine, Pulled, Honest, Plausible, Replay, Restrict, Rep.Content;
    var ts: seq<Truth> := [];
    while |ts| < |sources|
      invariant |ts| <= |sources|
      invariant forall i :: 0 <= i < |ts| ==>
        && ts[i].id == sources[i].id && Plausible(ts[i], owner) && ts[i].bulkAt <= ts[i].frozenAt <= |ts[i].history|
        && Honest(ts[i], accept, bulk[i], frozen[i])
        && At(ts[i], ts[i].frozenAt, accept) == Restrict(Answerer(xs[i]), accept)
    {
      var n := |ts|;
      SameEpochIsHonest(xs[n], sources[n].id, accept, bulk[n], frozen[n]);
      var t := TruthIn(xs[n], sources[n].id, bulk[n], frozen[n]);
      TruthPlausible(xs[n], sources[n].id, owner, bulk[n], frozen[n]);
      ts := ts + [t];
    }
    PullExact(m, ts, owner, accept, bulk, frozen);
    forall i, k | 0 <= i < |sources| && owner(k) == sources[i].id
      ensures Lookup(Pulled(m, bulk, frozen), k) == Lookup(Restrict(Answerer(xs[i]), accept), k)
    {
      assert Agrees(Pulled(m, bulk, frozen), ts[i], owner, At(ts[i], ts[i].frozenAt, accept));
    }
    forall k | k in Pulled(m, bulk, frozen)
      ensures exists i :: 0 <= i < |sources| && owner(k) == sources[i].id
    {
      var i :| 0 <= i < |ts| && owner(k) == ts[i].id;
      assert owner(k) == sources[i].id;
    }
  }

  /** The partition only ever logged operations on its own keys. */
  ghost predicate OwnHistory(h: seq<Op>, owner: string -> int, id: int) {
    forall i :: 0 <= i < |h| ==> h[i].Checkpoint? || owner(h[i].key) == id
  }

  lemma TruthPlausible(x: Exchange, id: int, owner: string -> int, first: Chunk, second: Chunk)
    requires 0 <= first.number <= second.number <= |Seen(x, second)| && OwnHistory(LM.HistoryOf(x.after, x.second), owner, id)
    ensures Plausible(TruthIn(x, id, first, second), owner)
  {}

  // ----- commits -----

  /** What the commit compares in the layout is what the resharding protocol relies on. */
  lemma CommitChecksEpochs(l: Layout, a: RS.Attempt, leader: string)
    requires |a.epochs| == |a.sources|
    requires StillValid(l, PullResult(a.generation, a.id, leader, a.epoch, Expected(a)))
    ensures RS.SameEpochs(l, a)
  {
    forall i | 0 <= i < |a.sources|
      ensures a.sources[i] < |l.parts| && l.parts[a.sources[i]].epoch == a.epochs[i]
    {
      assert Expected(a)[i] == (a.sources[i], a.epochs[i]);
    }
  }

  /** The sources of an attempt with the epochs it expects. */
  function Expected(a: RS.Attempt): seq<(nat, int)>
    requires |a.epochs| == |a.sources|
  {
    seq(|a.sources|, i requires 0 <= i < |a.sources| => (a.sources[i], a.epochs[i]))
  }
}
