/**
 * Replication of one partition as a protocol over any number of replicas: promotions, demotions,
 * deposed leaders that keep writing, requests and answers that arrive late.
 */
module LogMatching {
  import opened Ops
  import opened Wal
  import opened Replica

  /** A replica is identified by its node and that node's incarnation. */
  datatype Id = Nobody | Node(name: string, incarnation: int)

  /** What a follower's replication loop is waiting for, or the answer on its way. */
  datatype Flight =
    | AskSnapshot(epoch: int)
    | AskLog(epoch: int, dataEpoch: int, after: int)
    | SnapshotReply(snap: Snapshot, history: seq<Op>)
    | LogReply(leaderEpoch: int, from: int, batch: seq<Op>)
    | GoneReply

  /**
   * `history` is the full history behind each replica's data, and `epochs` the full history of
   * every epoch that was ever led. Neither exists in the program.
   */
  datatype Cluster = Cluster(
    reps: map<Id, Rep>, history: map<Id, seq<Op>>, epochs: map<int, seq<Op>>, flights: map<Id, Flight>)

  datatype Step =
    | Create(id: Id, retain: nat)
    | Drop(id: Id)
    | Lead(id: Id, epoch: int)
    | Promote(id: Id, epoch: int)
    | Follow(id: Id, epoch: int)
    | Seal(id: Id, on: bool)
    | Write(id: Id, op: Op, flush: bool)
    | RequestSnapshot(id: Id)
    | RequestLog(id: Id)
    | ServeSnapshot(leader: Id, id: Id)
    | ServeLog(leader: Id, id: Id, max: nat)
    | Lose(id: Id)
    | Deliver(id: Id)

  predicate Leads(s: Cluster, id: Id) { id in s.reps && s.reps[id].role.Leader? }

  predicate Follows(s: Cluster, id: Id) { id in s.reps && s.reps[id].role.Follower? }

  /** When a step may happen. Leading an epoch needs an epoch nobody has led before. */
  predicate Enabled(s: Cluster, step: Step) {
    match step
    case Create(id, _) => id !in s.reps
    case Drop(id) => id in s.reps
    case Lead(id, e) => id in s.reps && e > 0 && e !in s.epochs
    case Promote(id, e) => id in s.reps && e > 0 && e !in s.epochs
    case Follow(id, _) => id in s.reps
    case Seal(id, _) => id in s.reps
    case Write(id, _, _) => Leads(s, id)
    case RequestSnapshot(id) => Follows(s, id) && id !in s.flights && !s.reps[id].synced
    case RequestLog(id) => Follows(s, id) && id !in s.flights && s.reps[id].synced
    case ServeSnapshot(l, id) =>
      Leads(s, l) && id in s.flights && s.flights[id].AskSnapshot? && s.reps[l].epoch == s.flights[id].epoch
    case ServeLog(l, id, _) =>
      Leads(s, l) && id in s.flights && s.flights[id].AskLog? && s.reps[l].epoch == s.flights[id].epoch
    case Lose(id) => id in s.flights
    case Deliver(id) =>
      id in s.flights && (s.flights[id].SnapshotReply? || s.flights[id].LogReply? || s.flights[id].GoneReply?)
  }

  function HistoryOf(s: Cluster, id: Id): seq<Op> { if id in s.history then s.history[id] else [] }

  function FlightOf(s: Cluster, id: Id): Option<Flight> { if id in s.flights then Some(s.flights[id]) else None }

  /** The log entries a leader answers with: up to max operations after `after`. */
  function Batch(r: Rep, after: int, max: nat): seq<Op> {
    if r.start <= after <= r.Seq() then
      var rest := r.ops[after - r.start..];
      if max < |rest| then rest[..max] else rest
    else []
  }

  /** The cluster with everything about one replica replaced. */
  function Put(s: Cluster, id: Id, r: Rep, h: seq<Op>, f: Option<Flight>, epochs: map<int, seq<Op>>): Cluster {
    Cluster(s.reps[id := r], s.history[id := h], epochs, if f.Some? then s.flights[id := f.value] else s.flights - {id})
  }

  /** A leader's history grows, and with it the history of the epoch it leads. */
  function Append(s: Cluster, id: Id, ops: seq<Op>, r: Rep): Cluster {
    var h := HistoryOf(s, id) + ops;
    Put(s, id, r, h, FlightOf(s, id), s.epochs[r.epoch := h])
  }

  function Next(s: Cluster, step: Step): Cluster
    requires Enabled(s, step)
  {
    match step
    case Create(id, retain) => Put(s, id, Fresh(retain), [], None, s.epochs)
    case Drop(id) => Cluster(s.reps - {id}, s.history - {id}, s.epochs, s.flights - {id})
    case Lead(id, e) => Put(s, id, s.reps[id].LeadFresh(e), [], None, s.epochs[e := []])
    case Promote(id, e) => Put(s, id, s.reps[id].Promote(e), HistoryOf(s, id), None, s.epochs[e := HistoryOf(s, id)])
    case Follow(id, e) =>
      var r := s.reps[id];
      Put(s, id, r.Follow(e), if r.role.Leader? then [] else HistoryOf(s, id), FlightOf(s, id), s.epochs)
    case Seal(id, on) => Put(s, id, s.reps[id].(sealed := on), HistoryOf(s, id), FlightOf(s, id), s.epochs)
    case Write(id, op, flush) =>
      Append(s, id, if flush then [op, Checkpoint] else [op], s.reps[id].Write(op, flush))
    case RequestSnapshot(id) =>
      Put(s, id, s.reps[id], HistoryOf(s, id), Some(AskSnapshot(s.reps[id].epoch)), s.epochs)
    case RequestLog(id) =>
      var r := s.reps[id];
      Put(s, id, r, HistoryOf(s, id), Some(AskLog(r.epoch, r.dataEpoch, r.Seq())), s.epochs)
    case ServeSnapshot(l, id) =>
      var r := s.reps[l].Log(Checkpoint);
      var t := Append(s, l, [Checkpoint], r);
      if id !in t.reps then t
      else
        var reply := SnapshotReply(Snapshot(r.epoch, r.Seq(), r.Content()), HistoryOf(t, l));
        Put(t, id, t.reps[id], HistoryOf(t, id), Some(reply), t.epochs)
    case ServeLog(l, id, max) =>
      var r, ask := s.reps[l], s.flights[id];
      var reply :=
        if r.CanServe(ask.dataEpoch, ask.after) && r.walBase <= ask.after
        then LogReply(r.epoch, ask.after, Batch(r, ask.after, max)) else GoneReply;
      if id !in s.reps then s else Put(s, id, s.reps[id], HistoryOf(s, id), Some(reply), s.epochs)
    case Lose(id) => if id !in s.reps then s else Put(s, id, s.reps[id], HistoryOf(s, id), None, s.epochs)
    case Deliver(id) =>
      if !Follows(s, id) then s.(flights := s.flights - {id})
      else
        var r := s.reps[id];
        match s.flights[id]
        case SnapshotReply(snap, h) => Put(s, id, r.Load(snap), h, None, s.epochs)
        case LogReply(e, from, batch) =>
          if !r.synced then Put(s, id, r, HistoryOf(s, id), None, s.epochs)
          else Put(s, id, r.ApplyLogEntries(Numbered(from, batch), e), HistoryOf(s, id) + batch, None, s.epochs)
        case _ => Put(s, id, r.Emptied(), [], None, s.epochs)
  }

  predicate Initial(s: Cluster) { s == Cluster(map[], map[], map[], map[]) }

  // ----- the invariant -----

  /** The replica's log and content stand for the history h. */
  predicate Faithful(r: Rep, h: seq<Op>) {
    0 <= r.start <= |h| && r.base == Replay(map[], h[..r.start]) && r.ops == h[r.start..] && r.start <= r.walBase
  }

  predicate Matches(r: Rep, h: seq<Op>, epochs: map<int, seq<Op>>) {
    match r.role
    case Leader =>
      && r.epoch > 0 && r.epoch in epochs && epochs[r.epoch] == h && r.synced && r.dataEpoch == r.epoch
      && (r.prevEpoch >= 0 ==>
            r.prevEpoch in epochs && 0 <= r.promotedSeq <= |h| && h[..r.promotedSeq] <= epochs[r.prevEpoch])
    case Follower => if r.synced then r.dataEpoch > 0 && r.dataEpoch in epochs && h <= epochs[r.dataEpoch] else h == [] && r.dataEpoch == 0
  }

  predicate FlightOk(f: Flight, r: Rep, h: seq<Op>, epochs: map<int, seq<Op>>) {
    && r.role.Follower?
    && match f
       case AskSnapshot(_) => true
       case AskLog(_, d, a) => r.synced && d == r.dataEpoch && a == |h|
       case SnapshotReply(snap, sh) =>
         && snap.epoch > 0 && snap.epoch in epochs && sh <= epochs[snap.epoch]
         && snap.number == |sh| && snap.data == Replay(map[], sh)
       case LogReply(e, from, batch) => r.synced && e > 0 && e in epochs && from == |h| && h + batch <= epochs[e]
       case GoneReply => true
  }

  /** What one replica must satisfy on its own. */
  ghost predicate Good(r: Rep, h: seq<Op>, f: Option<Flight>, epochs: map<int, seq<Op>>) {
    Faithful(r, h) && Matches(r, h, epochs) && (f.Some? ==> FlightOk(f.value, r, h, epochs))
  }

  ghost predicate Inv(s: Cluster) {
    && s.history.Keys == s.reps.Keys && s.flights.Keys <= s.reps.Keys
    && (forall id :: id in s.reps ==> Good(s.reps[id], HistoryOf(s, id), FlightOf(s, id), s.epochs))
    && OneEach(s)
  }

  /** No two replicas lead the same epoch. */
  ghost predicate OneEach(s: Cluster) {
    forall i, j :: Leads(s, i) && Leads(s, j) && s.reps[i].epoch == s.reps[j].epoch ==> i == j
  }

  ghost predicate Extends(before: map<int, seq<Op>>, after: map<int, seq<Op>>) {
    forall e :: e in before ==> e in after && before[e] <= after[e]
  }

  // ----- preservation -----

  lemma MatchesExtends(r: Rep, h: seq<Op>, before: map<int, seq<Op>>, after: map<int, seq<Op>>)
    requires Matches(r, h, before) && Extends(before, after)
    requires r.role.Leader? ==> after[r.epoch] == before[r.epoch]
    ensures Matches(r, h, after)
  {}

  lemma FlightExtends(f: Flight, r: Rep, h: seq<Op>, before: map<int, seq<Op>>, after: map<int, seq<Op>>)
    requires FlightOk(f, r, h, before) && Extends(before, after)
    ensures FlightOk(f, r, h, after)
  {}

  lemma GoodOf(s: Cluster, id: Id)
    requires Inv(s) && id in s.reps
    ensures Good(s.reps[id], HistoryOf(s, id), FlightOf(s, id), s.epochs)
  {}

  /** Replacing one replica, and lengthening only epochs no other replica leads, keeps the invariant. */
  lemma PutKeepsInv(s: Cluster, id: Id, r: Rep, h: seq<Op>, f: Option<Flight>, epochs: map<int, seq<Op>>)
    requires Inv(s) && Good(r, h, f, epochs) && Extends(s.epochs, epochs)
    requires forall j :: j != id && Leads(s, j) ==>
      && s.reps[j].epoch in s.epochs && s.reps[j].epoch in epochs && epochs[s.reps[j].epoch] == s.epochs[s.reps[j].epoch]
      && (r.role.Leader? ==> s.reps[j].epoch != r.epoch)
    ensures Inv(Put(s, id, r, h, f, epochs))
  {
    hide Good, Extends, OneEach;
    var t := Put(s, id, r, h, f, epochs);
    PutOneEach(s, id, r, h, f, epochs);
    forall j | j in t.reps
      ensures Good(t.reps[j], HistoryOf(t, j), FlightOf(t, j), t.epochs)
    {
      if j != id {
        GoodExtends(s, j, epochs);
      }
    }
  }

  lemma PutOneEach(s: Cluster, id: Id, r: Rep, h: seq<Op>, f: Option<Flight>, epochs: map<int, seq<Op>>)
    requires OneEach(s) && forall j :: j != id && Leads(s, j) && r.role.Leader? ==> s.reps[j].epoch != r.epoch
    ensures OneEach(Put(s, id, r, h, f, epochs))
  {
    var t := Put(s, id, r, h, f, epochs);
    assert forall j :: j != id && Leads(t, j) ==> Leads(s, j);
  }

  lemma GoodExtends(s: Cluster, j: Id, epochs: map<int, seq<Op>>)
    requires Inv(s) && j in s.reps && Extends(s.epochs, epochs)
    requires Leads(s, j) ==>
      s.reps[j].epoch in s.epochs && s.reps[j].epoch in epochs && epochs[s.reps[j].epoch] == s.epochs[s.reps[j].epoch]
    ensures Good(s.reps[j], HistoryOf(s, j), FlightOf(s, j), epochs)
  {
    GoodOf(s, j);
    MatchesExtends(s.reps[j], s.history[j], s.epochs, epochs);
    if j in s.flights {
      FlightExtends(s.flights[j], s.reps[j], s.history[j], s.epochs, epochs);
    }
  }

  /** The common case: no epoch changes, and the replica does not start to lead. */
  lemma PutQuietly(s: Cluster, id: Id, r: Rep, h: seq<Op>, f: Option<Flight>)
    requires Inv(s) && Good(r, h, f, s.epochs)
    requires r.role.Leader? ==> Leads(s, id) && s.reps[id].epoch == r.epoch
    ensures Inv(Put(s, id, r, h, f, s.epochs))
  {
    forall j | j != id && Leads(s, j)
      ensures s.reps[j].epoch in s.epochs && (r.role.Leader? ==> s.reps[j].epoch != r.epoch)
    {
      GoodOf(s, j);
    }
    PutKeepsInv(s, id, r, h, f, s.epochs);
  }

  /** A replica that starts to lead an epoch of its own. */
  lemma PutLeading(s: Cluster, id: Id, r: Rep, h: seq<Op>)
    requires Inv(s) && r.role.Leader? && r.epoch !in s.epochs
    requires Good(r, h, None, s.epochs[r.epoch := h])
    ensures Inv(Put(s, id, r, h, None, s.epochs[r.epoch := h]))
  {
    forall j | j != id && Leads(s, j)
      ensures s.reps[j].epoch in s.epochs && s.reps[j].epoch != r.epoch
    {
      GoodOf(s, j);
    }
    PutKeepsInv(s, id, r, h, None, s.epochs[r.epoch := h]);
  }

  lemma FaithfulLog(r: Rep, h: seq<Op>, op: Op)
    requires Faithful(r, h)
    ensures Faithful(r.Log(op), h + [op])
  {
    assert (h + [op])[..r.start] == h[..r.start];
  }

  lemma FaithfulContent(r: Rep, h: seq<Op>)
    requires Faithful(r, h)
    ensures r.Seq() == |h| && r.Content() == Replay(map[], h)
  {
    ReplayConcat(map[], h[..r.start], h[r.start..]);
    assert h[..r.start] + h[r.start..] == h;
  }

  lemma FaithfulWrite(r: Rep, h: seq<Op>, op: Op, flush: bool)
    requires Faithful(r, h)
    ensures Faithful(r.Write(op, flush), h + (if flush then [op, Checkpoint] else [op]))
  {
    FaithfulLog(r, h, op);
    if flush {
      FaithfulLog(r.Log(op), h + [op], Checkpoint);
      assert h + [op] + [Checkpoint] == h + [op, Checkpoint];
    }
  }

  /** A batch that starts where the replica ends is appended as it is. */
  lemma FaithfulApply(r: Rep, h: seq<Op>, batch: seq<Op>, e: int)
    requires Faithful(r, h)
    ensures var r' := r.ApplyLogEntries(Numbered(|h|, batch), e);
      Faithful(r', h + batch) && r'.role == r.role && r'.synced == r.synced && r'.dataEpoch == e
  {
    FaithfulContent(r, h);
    IngestBatch(r, |h|, batch);
    WalBaseKept(r, Numbered(|h|, batch));
    assert batch[0..] == batch;
    hide Rep.Ingest, Numbered;
    var r' := r.Ingest(Numbered(|h|, batch)).0;
    FaithfulAppend(r, r', h, batch);
  }

  lemma FaithfulAppend(r: Rep, r': Rep, h: seq<Op>, batch: seq<Op>)
    requires Faithful(r, h) && r'.ops == r.ops + batch && r'.base == r.base && r'.start == r.start <= r'.walBase
    ensures Faithful(r', h + batch)
  {
    assert (h + batch)[..r.start] == h[..r.start];
    assert (h + batch)[r.start..] == h[r.start..] + batch;
  }

  lemma {:induction false} WalBaseKept(r: Rep, entries: seq<LogEntry>)
    requires r.start <= r.walBase
    ensures r.Ingest(entries).0.start == r.start && r.start <= r.Ingest(entries).0.walBase
    decreases |entries|
  {
    if entries == [] {
    } else if entries[0].number <= r.Seq() {
      WalBaseKept(r, entries[1..]);
    } else if entries[0].number == r.Seq() + 1 {
      WalBaseKept(r.Log(entries[0].op), entries[1..]);
    }
  }

  /** Log matching: whenever the leader agrees to serve, the follower's history is a prefix of its own. */
  lemma CanServeMeansPrefix(s: Cluster, l: Id, dataEpoch: int, after: int, h: seq<Op>)
    requires Inv(s) && Leads(s, l) && s.reps[l].CanServe(dataEpoch, after)
    requires dataEpoch in s.epochs && h <= s.epochs[dataEpoch] && |h| == after
    ensures h <= s.history[l]
  {
    var r, lh := s.reps[l], s.history[l];
    GoodOf(s, l);
    if dataEpoch != r.epoch {
      var prev := s.epochs[r.prevEpoch];
      assert lh[..r.promotedSeq][..after] == prev[..after] == h;
      assert lh[..r.promotedSeq][..after] == lh[..after];
    }
  }

  lemma OtherEpoch(s: Cluster, l: Id, j: Id)
    requires Inv(s) && Leads(s, l) && Leads(s, j) && j != l
    ensures s.reps[j].epoch in s.epochs && s.reps[j].epoch != s.reps[l].epoch
  {
    hide Faithful;
    GoodOf(s, j);
  }

  lemma AppendKeepsInv(s: Cluster, l: Id, ops: seq<Op>, r: Rep)
    requires Inv(s) && Leads(s, l)
    requires r == s.reps[l].(ops := r.ops, walBase := r.walBase) && Faithful(r, s.history[l] + ops)
    ensures Inv(Append(s, l, ops, r))
  {
    hide OneEach, Faithful;
    var h, h' := s.history[l], s.history[l] + ops;
    GoodOf(s, l);
    assert FlightOf(s, l).None?;
    var epochs := s.epochs[r.epoch := h'];
    assert r.prevEpoch >= 0 ==> h'[..r.promotedSeq] == h[..r.promotedSeq];
    assert Good(r, h', None, epochs);
    forall j | j != l && Leads(s, j)
      ensures s.reps[j].epoch in s.epochs && s.reps[j].epoch != r.epoch
    {
      OtherEpoch(s, l, j);
    }
    PutKeepsInv(s, l, r, h', None, epochs);
  }

  lemma BatchExtends(r: Rep, lh: seq<Op>, h: seq<Op>, max: nat)
    requires Faithful(r, lh) && h <= lh && r.start <= |h|
    ensures h + Batch(r, |h|, max) <= lh
  {
    var batch := Batch(r, |h|, max);
    assert r.ops[|h| - r.start..] == lh[|h|..];
    assert h + batch == lh[..|h| + |batch|];
  }

  /** The answer to a log request continues the follower's history within the leader's. */
  lemma ReplyOk(s: Cluster, l: Id, id: Id, max: nat)
    requires Inv(s) && Enabled(s, ServeLog(l, id, max)) && id in s.reps
    requires s.reps[l].CanServe(s.flights[id].dataEpoch, s.flights[id].after) && s.reps[l].walBase <= s.flights[id].after
    ensures FlightOk(LogReply(s.reps[l].epoch, s.flights[id].after, Batch(s.reps[l], s.flights[id].after, max)),
                     s.reps[id], HistoryOf(s, id), s.epochs)
  {
    var ask, h := s.flights[id], s.history[id];
    GoodOf(s, id);
    GoodOf(s, l);
    CanServeMeansPrefix(s, l, ask.dataEpoch, ask.after, h);
    BatchExtends(s.reps[l], s.history[l], h, max);
  }

  lemma ServeLogKeepsInv(s: Cluster, l: Id, id: Id, max: nat)
    requires Inv(s) && Enabled(s, ServeLog(l, id, max))
    ensures Inv(Next(s, ServeLog(l, id, max)))
  {
    var r, ask := s.reps[l], s.flights[id];
    if r.CanServe(ask.dataEpoch, ask.after) && r.walBase <= ask.after {
      ReplyOk(s, l, id, max);
    }
    GoodOf(s, id);
    hide Faithful, Matches, Batch, Put;
    var reply :=
      if r.CanServe(ask.dataEpoch, ask.after) && r.walBase <= ask.after
      then LogReply(r.epoch, ask.after, Batch(r, ask.after, max)) else GoneReply;
    PutQuietly(s, id, s.reps[id], HistoryOf(s, id), Some(reply));
  }

  lemma ServeSnapshotKeepsInv(s: Cluster, l: Id, id: Id)
    requires Inv(s) && Enabled(s, ServeSnapshot(l, id))
    ensures Inv(Next(s, ServeSnapshot(l, id)))
  {
    hide OneEach, Faithful, Replay, Rep.Content;
    var r := s.reps[l].Log(Checkpoint);
    GoodOf(s, l);
    FaithfulLog(s.reps[l], s.history[l], Checkpoint);
    AppendKeepsInv(s, l, [Checkpoint], r);
    var t := Append(s, l, [Checkpoint], r);
    var reply := SnapshotReply(Snapshot(r.epoch, r.Seq(), r.Content()), HistoryOf(t, l));
    GoodOf(s, id);
    assert t.reps[l] == r && Follows(t, id);
    SnapshotReplyOk(t, l, id);
    GoodOf(t, id);
    PutQuietly(t, id, t.reps[id], HistoryOf(t, id), Some(reply));
  }

  /** A leader's snapshot stands for its whole history. */
  lemma SnapshotReplyOk(t: Cluster, l: Id, id: Id)
    requires Inv(t) && Leads(t, l) && Follows(t, id)
    ensures var r := t.reps[l];
      FlightOk(SnapshotReply(Snapshot(r.epoch, r.Seq(), r.Content()), HistoryOf(t, l)), t.reps[id], HistoryOf(t, id), t.epochs)
  {
    GoodOf(t, l);
    FaithfulContent(t.reps[l], t.history[l]);
  }

  lemma FaithfulEmpty(r: Rep)
    requires r.base == map[] && r.start == 0 && r.ops == [] && r.walBase == 0
    ensures Faithful(r, [])
  {}

  lemma DeliverSnapshotOk(s: Cluster, id: Id)
    requires Inv(s) && id in s.flights && s.flights[id].SnapshotReply?
    ensures Good(s.reps[id].Load(s.flights[id].snap), s.flights[id].history, None, s.epochs)
    ensures s.reps[id].role.Follower? && s.reps[id].Load(s.flights[id].snap).role.Follower?
  {
    hide OneEach;
    GoodOf(s, id);
    var sh := s.flights[id].history;
    assert sh[..|sh|] == sh && sh[|sh|..] == [];
  }

  lemma DeliverLogOk(s: Cluster, id: Id)
    requires Inv(s) && id in s.flights && s.flights[id].LogReply?
    ensures var r, f := s.reps[id], s.flights[id];
      r.synced && r.role.Follower? && r.ApplyLogEntries(Numbered(f.from, f.batch), f.leaderEpoch).role.Follower? &&
      Good(r.ApplyLogEntries(Numbered(f.from, f.batch), f.leaderEpoch), HistoryOf(s, id) + f.batch, None, s.epochs)
  {
    hide OneEach, Rep.ApplyLogEntries, Numbered;
    GoodOf(s, id);
    var f := s.flights[id];
    FaithfulApply(s.reps[id], HistoryOf(s, id), f.batch, f.leaderEpoch);
  }

  lemma DeliverKeepsInv(s: Cluster, id: Id)
    requires Inv(s) && Enabled(s, Deliver(id))
    ensures Inv(Next(s, Deliver(id)))
  {
    hide OneEach, Good, Put, Rep.ApplyLogEntries, Rep.Load;
    var r, h, f := s.reps[id], HistoryOf(s, id), s.flights[id];
    match f
    case SnapshotReply(snap, sh) =>
      DeliverSnapshotOk(s, id);
      PutQuietly(s, id, r.Load(snap), sh, None);
    case LogReply(e, from, batch) =>
      DeliverLogOk(s, id);
      PutQuietly(s, id, r.ApplyLogEntries(Numbered(from, batch), e), h + batch, None);
    case GoneReply =>
      DeliverGoneOk(s, id);
      PutQuietly(s, id, r.Emptied(), [], None);
  }

  lemma DeliverGoneOk(s: Cluster, id: Id)
    requires Inv(s) && id in s.flights && s.flights[id].GoneReply?
    ensures s.reps[id].role.Follower? && Good(s.reps[id].Emptied(), [], None, s.epochs)
  {
    hide OneEach;
    GoodOf(s, id);
    FaithfulEmpty(s.reps[id].Emptied());
  }

  lemma DropKeepsInv(s: Cluster, id: Id)
    requires Inv(s) && id in s.reps
    ensures Inv(Next(s, Drop(id)))
  {
    hide Good;
    var t := Next(s, Drop(id));
    assert forall j :: Leads(t, j) ==> Leads(s, j);
  }

  lemma PromoteKeepsInv(s: Cluster, id: Id, e: int)
    requires Inv(s) && Enabled(s, Promote(id, e))
    ensures Inv(Next(s, Promote(id, e)))
  {
    var r, h := s.reps[id], HistoryOf(s, id);
    GoodOf(s, id);
    PromotedGood(r, h, s.epochs, e);
    hide Good, Put;
    PutLeading(s, id, r.Promote(e), h);
  }

  lemma PromotedGood(r: Rep, h: seq<Op>, epochs: map<int, seq<Op>>, e: int)
    requires Faithful(r, h) && Matches(r, h, epochs) && e > 0 && e !in epochs
    ensures Good(r.Promote(e), h, None, epochs[e := h])
  {
    FaithfulContent(r, h);
    assert h[..|h|] == h;
    assert Faithful(r.Promote(e), h);
    hide Faithful;
    assert Matches(r.Promote(e), h, epochs[e := h]);
  }

  lemma FollowKeepsInv(s: Cluster, id: Id, e: int)
    requires Inv(s) && Enabled(s, Follow(id, e))
    ensures Inv(Next(s, Follow(id, e)))
  {
    var r, h := s.reps[id], HistoryOf(s, id);
    GoodOf(s, id);
    if r.role.Leader? {
      FaithfulEmpty(r.Follow(e));
      PutQuietly(s, id, r.Follow(e), [], FlightOf(s, id));
    } else {
      PutQuietly(s, id, r.Follow(e), h, FlightOf(s, id));
    }
  }

  lemma WriteKeepsInv(s: Cluster, id: Id, op: Op, flush: bool)
    requires Inv(s) && Enabled(s, Write(id, op, flush))
    ensures Inv(Next(s, Write(id, op, flush)))
  {
    hide OneEach, Replay, Rep.Content, Append;
    GoodOf(s, id);
    FaithfulWrite(s.reps[id], s.history[id], op, flush);
    AppendKeepsInv(s, id, if flush then [op, Checkpoint] else [op], s.reps[id].Write(op, flush));
  }

  lemma RequestKeepsInv(s: Cluster, step: Step)
    requires Inv(s) && (step.RequestSnapshot? || step.RequestLog? || step.Lose?) && Enabled(s, step)
    ensures Inv(Next(s, step))
  {
    var id := step.id;
    assert id in s.reps by { if step.Lose? { assert id in s.flights.Keys; } }
    hide Inv, Good, Put;
    var r, h := s.reps[id], HistoryOf(s, id);
    var f := match step
      case RequestSnapshot(_) => Some(AskSnapshot(r.epoch))
      case RequestLog(_) => Some(AskLog(r.epoch, r.dataEpoch, r.Seq()))
      case _ => None;
    assert Next(s, step) == Put(s, id, r, h, f, s.epochs);
    RequestGood(s, step, f);
    PutQuietly(s, id, r, h, f);
  }

  lemma RequestGood(s: Cluster, step: Step, f: Option<Flight>)
    requires Inv(s) && (step.RequestSnapshot? || step.RequestLog? || step.Lose?) && Enabled(s, step) && step.id in s.reps
    requires var r := s.reps[step.id];
      f == if step.RequestSnapshot? then Some(AskSnapshot(r.epoch))
           else if step.RequestLog? then Some(AskLog(r.epoch, r.dataEpoch, r.Seq())) else None
    ensures Good(s.reps[step.id], HistoryOf(s, step.id), f, s.epochs)
  {
    hide OneEach, Replay, Rep.Content;
    GoodOf(s, step.id);
    FaithfulContent(s.reps[step.id], HistoryOf(s, step.id));
  }

  lemma StepKeepsInv(s: Cluster, step: Step)
    requires Inv(s) && Enabled(s, step)
    ensures Inv(Next(s, step))
  {
    hide OneEach, Replay, Rep.Content, Rep.CanServe, Rep.ApplyLogEntries, Batch, Numbered;
    match step
    case Create(id, retain) =>
      FaithfulEmpty(Fresh(retain));
      PutQuietly(s, id, Fresh(retain), [], None);
    case Drop(id) => DropKeepsInv(s, id);
    case Lead(id, e) =>
      FaithfulEmpty(s.reps[id].LeadFresh(e));
      PutLeading(s, id, s.reps[id].LeadFresh(e), []);
    case Promote(id, e) => PromoteKeepsInv(s, id, e);
    case Follow(id, e) => FollowKeepsInv(s, id, e);
    case Seal(id, on) =>
      GoodOf(s, id);
      PutQuietly(s, id, s.reps[id].(sealed := on), HistoryOf(s, id), FlightOf(s, id));
    case Write(id, op, flush) => WriteKeepsInv(s, id, op, flush);
    case RequestSnapshot(id) => RequestKeepsInv(s, step);
    case RequestLog(id) => RequestKeepsInv(s, step);
    case ServeSnapshot(l, id) => ServeSnapshotKeepsInv(s, l, id);
    case ServeLog(l, id, max) => ServeLogKeepsInv(s, l, id, max);
    case Lose(id) => RequestKeepsInv(s, step);
    case Deliver(id) => DeliverKeepsInv(s, id);
  }

  // ----- whole runs -----

  /** The state after a list of steps, if each of them was enabled. */
  ghost predicate Run(s: Cluster, steps: seq<Step>, t: Cluster)
    decreases |steps|
  {
    if steps == [] then s == t
    else Enabled(s, steps[0]) && Run(Next(s, steps[0]), steps[1..], t)
  }

  lemma {:induction false} RunKeepsInv(s: Cluster, steps: seq<Step>, t: Cluster)
    requires Inv(s) && Run(s, steps, t)
    ensures Inv(t)
    decreases |steps|
  {
    if steps == [] {
    } else {
      StepKeepsInv(s, steps[0]);
      RunKeepsInv(Next(s, steps[0]), steps[1..], t);
    }
  }

  /**
   * After any run: a synced follower's history is a prefix of its data epoch's history, an unsynced
   * one is empty at sequence 0, every replica's content is the replay of its history, and a leader
   * that agrees to serve a synced follower has that follower's history as a prefix of its own, so the
   * follower holds the leader's data as of the follower's sequence number.
   */
  lemma LogMatching(s: Cluster, steps: seq<Step>, t: Cluster, l: Id, f: Id)
    requires Initial(s) && Run(s, steps, t) && Follows(t, f)
    ensures f in t.history && t.reps[f].Seq() == |t.history[f]| && t.reps[f].Content() == Replay(map[], t.history[f])
    ensures t.reps[f].synced ==> t.reps[f].dataEpoch in t.epochs && t.history[f] <= t.epochs[t.reps[f].dataEpoch]
    ensures !t.reps[f].synced ==> t.reps[f].Seq() == 0 && t.reps[f].Content() == map[]
    ensures Leads(t, l) && t.reps[f].synced && t.reps[l].CanServe(t.reps[f].dataEpoch, t.reps[f].Seq()) ==>
      && l in t.history && t.history[f] <= t.history[l]
      && t.reps[f].Content() == Replay(map[], t.history[l][..t.reps[f].Seq()])
  {
    assert Inv(s);
    RunKeepsInv(s, steps, t);
    var r, h := t.reps[f], t.history[f];
    GoodOf(t, f);
    FaithfulContent(r, h);
    if Leads(t, l) && r.synced && t.reps[l].CanServe(r.dataEpoch, r.Seq()) {
      CanServeMeansPrefix(t, l, r.dataEpoch, r.Seq(), h);
      assert t.history[l][..|h|] == h;
    }
  }

  // ----- a new leader does not send its followers back to a snapshot -----

  /** Replica l leads epoch e and would serve a follower with data of epoch d up to n. */
  predicate Serves(s: Cluster, l: Id, e: int, d: int, n: int) { Leads(s, l) && s.reps[l].epoch == e && s.reps[l].CanServe(d, n) }

  /** Nobody comes to lead an epoch that has been led before. */
  lemma LeadsSince(s: Cluster, step: Step, l: Id, e: int)
    requires Inv(s) && Enabled(s, step) && e in s.epochs && Leads(Next(s, step), l) && Next(s, step).reps[l].epoch == e
    ensures Leads(s, l) && s.reps[l].epoch == e && e in Next(s, step).epochs
  {
    hide Inv, Rep.Content, Replay, Rep.Ingest, Rep.CanServe, Batch;
    if step.Deliver? {
      DeliverLeads(s, step.id, l);
    } else if step.ServeSnapshot? || step.ServeLog? {
      ServeLeads(s, step, l);
    }
  }

  lemma ServeLeads(s: Cluster, step: Step, l: Id)
    requires Enabled(s, step) && (step.ServeSnapshot? || step.ServeLog?) && Leads(Next(s, step), l)
    ensures Leads(s, l) && s.reps[l].epoch == Next(s, step).reps[l].epoch && Next(s, step).epochs.Keys >= s.epochs.Keys
  {
    hide Rep.Content, Replay, Rep.CanServe, Batch;
  }

  lemma DeliverLeads(s: Cluster, id: Id, l: Id)
    requires Enabled(s, Deliver(id)) && Leads(Next(s, Deliver(id)), l)
    ensures Leads(s, l) && s.reps[l] == Next(s, Deliver(id)).reps[l] && Next(s, Deliver(id)).epochs == s.epochs
  {
    hide Rep.Content, Replay, Rep.Ingest, Rep.ApplyLogEntries, Numbered;
    if Follows(s, id) && s.flights[id].LogReply? {
      AppliedRole(s.reps[id], s.flights[id].from, s.flights[id].batch, s.flights[id].leaderEpoch);
    }
  }

  lemma AppliedRole(r: Rep, from: int, batch: seq<Op>, e: int)
    ensures r.ApplyLogEntries(Numbered(from, batch), e).role == r.role
  {
    IngestRole(r, Numbered(from, batch));
  }

  lemma {:induction false} IngestRole(r: Rep, entries: seq<LogEntry>)
    ensures r.Ingest(entries).0.role == r.role
    decreases |entries|
  {
    if entries == [] {
    } else {
      IngestRole(r, entries[1..]);
      IngestRole(r.Log(entries[0].op), entries[1..]);
    }
  }

  /** As long as it leads the epoch, it goes on to serve whom it would have served. */
  lemma StillServes(s: Cluster, step: Step, l: Id, e: int, d: int, n: int)
    requires Inv(s) && Enabled(s, step) && e in s.epochs && Serves(s, l, e, d, n)
    requires Leads(Next(s, step), l) && Next(s, step).reps[l].epoch == e
    ensures Serves(Next(s, step), l, e, d, n)
  {
    hide Good, OneEach, Rep.Content, Replay, Rep.Ingest, Batch;
  }

  lemma {:induction false} RunServes(s: Cluster, steps: seq<Step>, t: Cluster, l: Id, e: int, d: int, n: int)
    requires Inv(s) && Run(s, steps, t) && e in s.epochs && Leads(t, l) && t.reps[l].epoch == e
    ensures Leads(s, l) && s.reps[l].epoch == e
    ensures Serves(s, l, e, d, n) ==> Serves(t, l, e, d, n)
    decreases |steps|
  {
    hide Inv, Enabled, Next, Serves;
    if steps == [] {
    } else {
      var m := Next(s, steps[0]);
      StepKeepsInv(s, steps[0]);
      EpochStays(s, steps[0], e);
      RunServes(m, steps[1..], t, l, e, d, n);
      LeadsSince(s, steps[0], l, e);
      if Serves(s, l, e, d, n) {
        StillServes(s, steps[0], l, e, d, n);
      }
    }
  }

  lemma EpochStays(s: Cluster, step: Step, e: int)
    requires Enabled(s, step) && e in s.epochs
    ensures e in Next(s, step).epochs
  {}

  /**
   * The other half of the rule. After a synced replica was promoted and as long as it leads that
   * epoch, whatever happens meanwhile, it serves every synced follower that has data of the same
   * epoch it was promoted from, up to where it was promoted, or data of its own epoch.
   */
  lemma ServesAfterPromotion(s: Cluster, l: Id, e: int, steps: seq<Step>, t: Cluster, f: Id)
    requires Inv(s) && Follows(s, l) && s.reps[l].synced && Enabled(s, Promote(l, e)) && Run(Next(s, Promote(l, e)), steps, t)
    requires Leads(t, l) && t.reps[l].epoch == e && Follows(t, f) && t.reps[f].synced
    requires t.reps[f].dataEpoch == e ||
      (t.reps[f].dataEpoch == s.reps[l].dataEpoch && |HistoryOf(t, f)| <= |HistoryOf(s, l)|)
    ensures t.reps[l].CanServe(t.reps[f].dataEpoch, t.reps[f].Seq())
  {
    hide Inv, Rep.CanServe, Serves;
    var p := Next(s, Promote(l, e));
    assert e in p.epochs;
    StepKeepsInv(s, Promote(l, e));
    RunKeepsInv(p, steps, t);
    if t.reps[f].dataEpoch == e {
      OwnEpochServes(t, l, f);
    } else {
      PromotedServes(s, l, e, t, f);
      RunServes(p, steps, t, l, e, t.reps[f].dataEpoch, t.reps[f].Seq());
      ServesMeans(t, l, e, t.reps[f].dataEpoch, t.reps[f].Seq());
    }
  }

  lemma ServesMeans(s: Cluster, l: Id, e: int, d: int, n: int)
    requires Serves(s, l, e, d, n)
    ensures Leads(s, l) && s.reps[l].CanServe(d, n)
  {}

  /** Followers with data of the leader's epoch are not ahead of it. */
  lemma OwnEpochServes(t: Cluster, l: Id, f: Id)
    requires Inv(t) && Leads(t, l) && Follows(t, f) && t.reps[f].synced && t.reps[f].dataEpoch == t.reps[l].epoch
    ensures t.reps[l].CanServe(t.reps[f].dataEpoch, t.reps[f].Seq())
  {
    hide OneEach, FlightOk, Replay, Rep.Content;
    GoodOf(t, f);
    GoodOf(t, l);
    FaithfulContent(t.reps[f], HistoryOf(t, f));
    FaithfulContent(t.reps[l], HistoryOf(t, l));
  }

  lemma PromotedServes(s: Cluster, l: Id, e: int, t: Cluster, f: Id)
    requires Inv(s) && Follows(s, l) && s.reps[l].synced && Enabled(s, Promote(l, e))
    requires Inv(t) && Follows(t, f) && t.reps[f].synced && t.reps[f].dataEpoch == s.reps[l].dataEpoch && |HistoryOf(t, f)| <= |HistoryOf(s, l)|
    ensures Serves(Next(s, Promote(l, e)), l, e, t.reps[f].dataEpoch, t.reps[f].Seq()) && e in Next(s, Promote(l, e)).epochs
  {
    hide OneEach, FlightOk, Replay, Rep.Content;
    GoodOf(s, l);
    GoodOf(t, f);
    FaithfulContent(s.reps[l], HistoryOf(s, l));
    FaithfulContent(t.reps[f], HistoryOf(t, f));
  }

  /** Whoever is served and asks for something the log still has gets the next operations. */
  lemma ServedFromLog(s: Cluster, l: Id, id: Id, max: nat)
    requires Enabled(s, ServeLog(l, id, max)) && id in s.reps
    requires s.reps[l].CanServe(s.flights[id].dataEpoch, s.flights[id].after) && s.reps[l].start <= s.reps[l].walBase <= s.flights[id].after
    ensures var t, ask := Next(s, ServeLog(l, id, max)), s.flights[id];
      && id in t.flights && t.flights[id].LogReply? && t.flights[id].from == ask.after
      && (ask.after < s.reps[l].Seq() && max > 0 ==> t.flights[id].batch != [])
  {}

  // ----- one exchange brings a follower up to date -----

  /**
   * A synced follower that asks a leader who agrees to serve and whose log reaches back to it ends up
   * with the next operations of the leader's history, as many as were asked for, in the leader's epoch.
   */
  lemma LogExchange(s: Cluster, l: Id, f: Id, max: nat) returns (t: Cluster)
    requires Inv(s) && Leads(s, l) && Follows(s, f) && f !in s.flights && s.reps[f].synced && s.reps[f].epoch == s.reps[l].epoch
    requires s.reps[l].CanServe(s.reps[f].dataEpoch, s.reps[f].Seq()) && s.reps[l].walBase <= s.reps[f].Seq()
    ensures Run(s, [RequestLog(f), ServeLog(l, f, max), Deliver(f)], t)
    ensures l in t.reps && t.reps[l] == s.reps[l] && HistoryOf(t, l) == HistoryOf(s, l)
    ensures Follows(t, f) && t.reps[f].synced && t.reps[f].dataEpoch == s.reps[l].epoch
    ensures |HistoryOf(t, f)| == Min(|HistoryOf(s, f)| + max, |HistoryOf(s, l)|) && HistoryOf(t, f) <= HistoryOf(s, l)
  {
    hide Inv, Next, Faithful, Replay, Rep.Content, Rep.ApplyLogEntries, Numbered, Batch, Rep.CanServe;
    var h, e := HistoryOf(s, f), s.reps[l].epoch;
    var batch := Batch(s.reps[l], |h|, max);
    assert s.reps[f].Seq() == |h| && h + batch <= HistoryOf(s, l) && |h + batch| == Min(|h| + max, |HistoryOf(s, l)|) by {
      BatchContinues(s, l, f, max);
    }
    AskedLog(s, f);
    var s1 := Next(s, RequestLog(f));
    AnsweredLog(s1, l, f, max);
    var s2 := Next(s1, ServeLog(l, f, max));
    DeliveredLog(s2, f);
    t := Next(s2, Deliver(f));
    RunThree(s, RequestLog(f), ServeLog(l, f, max), Deliver(f));
  }

  lemma BatchContinues(s: Cluster, l: Id, f: Id, max: nat)
    requires Inv(s) && Leads(s, l) && Follows(s, f) && s.reps[f].synced
    requires s.reps[l].CanServe(s.reps[f].dataEpoch, s.reps[f].Seq()) && s.reps[l].walBase <= s.reps[f].Seq()
    ensures var h := HistoryOf(s, f); var batch := Batch(s.reps[l], |h|, max);
      s.reps[f].Seq() == |h| && h + batch <= HistoryOf(s, l) && |h + batch| == Min(|h| + max, |HistoryOf(s, l)|)
  {
    hide OneEach, FlightOk, Replay, Rep.Content, Rep.CanServe, Batch;
    GoodOf(s, l);
    GoodOf(s, f);
    FaithfulContent(s.reps[f], HistoryOf(s, f));
    CanServeMeansPrefix(s, l, s.reps[f].dataEpoch, s.reps[f].Seq(), HistoryOf(s, f));
    BatchReaches(s.reps[l], HistoryOf(s, l), HistoryOf(s, f), max);
  }

  lemma AskedLog(s: Cluster, f: Id)
    requires Enabled(s, RequestLog(f))
    ensures var t, r := Next(s, RequestLog(f)), s.reps[f];
      && t.reps == s.reps && (forall j :: HistoryOf(t, j) == HistoryOf(s, j) || j == f) && HistoryOf(t, f) == HistoryOf(s, f)
      && f in t.flights && t.flights[f] == AskLog(r.epoch, r.dataEpoch, r.Seq())
  {}

  lemma AnsweredLog(s: Cluster, l: Id, f: Id, max: nat)
    requires Enabled(s, ServeLog(l, f, max)) && f in s.reps
    requires s.reps[l].CanServe(s.flights[f].dataEpoch, s.flights[f].after) && s.reps[l].walBase <= s.flights[f].after
    ensures var t, ask := Next(s, ServeLog(l, f, max)), s.flights[f];
      && t.reps == s.reps && (forall j :: HistoryOf(t, j) == HistoryOf(s, j))
      && f in t.flights && t.flights[f] == LogReply(s.reps[l].epoch, ask.after, Batch(s.reps[l], ask.after, max))
  {
    hide Rep.CanServe, Batch;
  }

  lemma DeliveredLog(s: Cluster, f: Id)
    requires Enabled(s, Deliver(f)) && Follows(s, f) && s.reps[f].synced && s.flights[f].LogReply?
    requires s.flights[f].from == s.reps[f].Seq()
    ensures var t, reply := Next(s, Deliver(f)), s.flights[f];
      && (forall j :: j != f ==> (j in t.reps <==> j in s.reps) && HistoryOf(t, j) == HistoryOf(s, j))
      && (forall j :: j != f && j in s.reps ==> t.reps[j] == s.reps[j])
      && Follows(t, f) && t.reps[f].synced && t.reps[f].dataEpoch == reply.leaderEpoch && HistoryOf(t, f) == HistoryOf(s, f) + reply.batch
  {
    hide Rep.Content, Rep.Ingest, Numbered;
    IngestBatch(s.reps[f], s.reps[f].Seq(), s.flights[f].batch);
  }

  lemma BatchReaches(r: Rep, lh: seq<Op>, h: seq<Op>, max: nat)
    requires Faithful(r, lh) && h <= lh && r.start <= |h|
    ensures h + Batch(r, |h|, max) <= lh && |h + Batch(r, |h|, max)| == Min(|h| + max, |lh|)
  {
    hide Replay;
    assert r.ops[|h| - r.start..] == lh[|h|..];
  }

  lemma RunThree(s: Cluster, a: Step, b: Step, c: Step)
    requires Enabled(s, a) && Enabled(Next(s, a), b) && Enabled(Next(Next(s, a), b), c)
    ensures Run(s, [a, b, c], Next(Next(Next(s, a), b), c))
  {
    hide Enabled, Next;
    var t := Next(Next(Next(s, a), b), c);
    assert [c][1..] == [] && Run(Next(Next(s, a), b), [c], t);
    assert [b, c][1..] == [c] && Run(Next(s, a), [b, c], t);
    assert [a, b, c][1..] == [b, c];
  }

  /** One that has no data and asks for a snapshot ends up with all that the leader has, in its epoch. */
  lemma SnapshotExchange(s: Cluster, l: Id, f: Id) returns (t: Cluster)
    requires Inv(s) && Leads(s, l) && Follows(s, f) && f !in s.flights && !s.reps[f].synced && s.reps[f].epoch == s.reps[l].epoch
    ensures Run(s, [RequestSnapshot(f), ServeSnapshot(l, f), Deliver(f)], t)
    ensures Leads(t, l) && HistoryOf(t, l) == HistoryOf(s, l) + [Checkpoint] && t.reps[l].Content() == s.reps[l].Content()
    ensures Follows(t, f) && t.reps[f].synced && t.reps[f].dataEpoch == s.reps[l].epoch
    ensures HistoryOf(t, f) == HistoryOf(t, l) && t.reps[f].Content() == s.reps[l].Content()
  {
    hide Inv, Next, Replay, Rep.Content, Rep.Log;
    var s1 := Next(s, RequestSnapshot(f));
    AskedSnapshot(s, f);
    var s2 := Next(s1, ServeSnapshot(l, f));
    AnsweredSnapshot(s1, l, f);
    t := Next(s2, Deliver(f));
    DeliveredSnapshot(s2, f);
    CheckpointContent(s.reps[l], t.reps[f]);
    RunThree(s, RequestSnapshot(f), ServeSnapshot(l, f), Deliver(f));
  }

  lemma AskedSnapshot(s: Cluster, f: Id)
    requires Enabled(s, RequestSnapshot(f))
    ensures var t := Next(s, RequestSnapshot(f));
      && t.reps == s.reps && (forall j :: HistoryOf(t, j) == HistoryOf(s, j) || j == f)
      && f in t.flights && t.flights[f] == AskSnapshot(s.reps[f].epoch)
  {}

  lemma AnsweredSnapshot(s: Cluster, l: Id, f: Id)
    requires Enabled(s, ServeSnapshot(l, f)) && Follows(s, f)
    ensures var t, r := Next(s, ServeSnapshot(l, f)), s.reps[l].Log(Checkpoint);
      && l in t.reps && t.reps[l] == r && HistoryOf(t, l) == HistoryOf(s, l) + [Checkpoint]
      && f in t.reps && t.reps[f] == s.reps[f]
      && f in t.flights && t.flights[f] == SnapshotReply(Snapshot(r.epoch, r.Seq(), r.Content()), HistoryOf(t, l))
  {
    hide Rep.Content, Rep.Log;
    CheckpointRole(s.reps[l]);
  }

  lemma CheckpointRole(r: Rep)
    ensures r.Log(Checkpoint).role == r.role && r.Log(Checkpoint).epoch == r.epoch
  {}

  lemma DeliveredSnapshot(s: Cluster, f: Id)
    requires Enabled(s, Deliver(f)) && Follows(s, f) && s.flights[f].SnapshotReply?
    ensures var t, reply := Next(s, Deliver(f)), s.flights[f];
      && (forall j :: j != f && j in s.reps ==> j in t.reps && t.reps[j] == s.reps[j] && HistoryOf(t, j) == HistoryOf(s, j))
      && Follows(t, f) && t.reps[f].synced && t.reps[f].dataEpoch == reply.snap.epoch && HistoryOf(t, f) == reply.history
      && t.reps[f].base == reply.snap.data && t.reps[f].ops == []
  {
    hide Rep.Content;
  }

  lemma CheckpointContent(r: Rep, loaded: Rep)
    requires loaded.base == r.Log(Checkpoint).Content() && loaded.ops == []
    ensures r.Log(Checkpoint).Content() == r.Content() && loaded.Content() == r.Content()
    ensures r.Log(Checkpoint).epoch == r.epoch && r.Log(Checkpoint).role == r.role
  {
    ReplayOne(r.base, r.ops, Checkpoint);
  }

  // ----- histories of epochs only grow -----

  lemma EpochsGrow(s: Cluster, step: Step)
    requires Inv(s) && Enabled(s, step)
    ensures Extends(s.epochs, Next(s, step).epochs)
  {
    hide OneEach, Faithful, FlightOk, Rep.Content, Replay, Rep.Ingest, Rep.CanServe, Batch, Rep.ApplyLogEntries;
    if step.Write? {
      GoodOf(s, step.id);
    } else if step.ServeSnapshot? {
      GoodOf(s, step.leader);
    }
  }

  lemma {:induction false} RunGrows(s: Cluster, steps: seq<Step>, t: Cluster)
    requires Inv(s) && Run(s, steps, t)
    ensures Inv(t) && Extends(s.epochs, t.epochs)
    decreases |steps|
  {
    hide Inv, Enabled, Next;
    if steps == [] {
    } else {
      StepKeepsInv(s, steps[0]);
      EpochsGrow(s, steps[0]);
      RunGrows(Next(s, steps[0]), steps[1..], t);
    }
  }
}
