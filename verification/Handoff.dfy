/**
 * Graceful leadership handoff of one partition: the controller publishes layouts, nodes apply them
 * in order (possibly skipping some), the controller polls nodes at any time and completes a handoff
 * from what they reported. Replication runs underneath as in LogMatching.
 */
module Handoffs {
  import opened Ops
  import opened Replica
  import opened Wal
  import LM = LogMatching

  type Id = LM.Id

  datatype Handoff = Handoff(to: Id, version: nat)

  /** The partition's part of a layout; the leader may be nobody. */
  datatype Assign = Assign(epoch: int, leader: Id, holders: set<Id>, handoff: Option<Handoff>)

  /**
   * A status report. The program has the first five fields; `version` may have been read before the
   * rest. seenAt, life and history record, for the proof, the layout applied when the rest was read,
   * how often the replica had lost its data by then, and its history.
   */
  datatype Report = Report(
    id: Id, version: nat, sealed: bool, number: int, dataEpoch: int, seenAt: nat, life: nat, history: seq<Op>)

  /** A completed handoff and the two reports it was completed from. */
  datatype Done = Done(epoch: int, from: Id, to: Id, start: nat, version: nat, leader: Report, target: Report)

  datatype World = World(
    c: LM.Cluster, layouts: seq<Assign>, seen: map<Id, nat>,
    lives: map<Id, nat>, led: map<int, (Id, nat)>,
    reports: set<Report>, done: set<Done>, kept: map<Done, int>)

  function SeenOf(w: World, id: Id): nat { if id in w.seen then w.seen[id] else 0 }

  function LifeOf(w: World, id: Id): nat { if id in w.lives then w.lives[id] else 0 }

  function Newest(w: World): nat
    requires w.layouts != []
  {
    |w.layouts| - 1
  }

  datatype Change = Same | Lost | Failover | Complete(leader: Report, target: Report)

  datatype Step =
    | Internal(step: LM.Step)
    | Observe(id: Id, version: nat, retain: nat)
    | Poll(id: Id, version: nat)
    | Publish(next: Assign, change: Change)

  // ----- nodes -----

  /** Steps that do not come from a layout; a client write needs an unsealed leader. */
  predicate IsInternal(w: World, step: LM.Step) {
    && LM.Enabled(w.c, step)
    && match step
       case Write(id, op, _) => !op.Checkpoint? && !w.c.reps[id].sealed
       case RequestSnapshot(_) => true
       case RequestLog(_) => true
       case ServeSnapshot(_, _) => true
       case ServeLog(_, _, _) => true
       case Lose(_) => true
       case Deliver(_) => true
       case _ => false
  }

  function Do(c: LM.Cluster, step: LM.Step): LM.Cluster {
    if LM.Enabled(c, step) then LM.Next(c, step) else c
  }

  /** What reconcile does with this partition on node id. */
  function Reconcile(c: LM.Cluster, id: Id, a: Assign, retain: nat): LM.Cluster {
    if id !in a.holders then Do(c, LM.Drop(id))
    else if a.leader == id then
      var led :=
        if id !in c.reps then Do(Do(c, LM.Create(id, retain)), LM.Lead(id, a.epoch))
        else if !LM.Leads(c, id) || c.reps[id].epoch != a.epoch then Do(c, LM.Promote(id, a.epoch))
        else c;
      Do(led, LM.Seal(id, a.handoff.Some?))
    else Do(Do(c, LM.Create(id, retain)), LM.Follow(id, a.epoch))
  }

  /** Does applying the assignment throw the replica's data away (or start it from nothing)? */
  predicate LosesData(c: LM.Cluster, id: Id, a: Assign) {
    id !in c.reps || id !in a.holders || (LM.Leads(c, id) && a.leader != id)
  }

  /** Does an internal step replace the data of replica id? */
  predicate Reloads(c: LM.Cluster, step: LM.Step, id: Id) {
    step == LM.Deliver(id) && id in c.flights && !c.flights[id].LogReply?
  }

  // ----- the controller -----

  /** The old leader sealed after it saw the handoff, and the target has everything up to there. */
  predicate MayComplete(cur: Assign, leader: Report, target: Report) {
    && cur.handoff.Some? && cur.leader != LM.Nobody
    && leader.id == cur.leader && leader.version >= cur.handoff.value.version && leader.sealed
    && target.id == cur.handoff.value.to && target.dataEpoch == cur.epoch && target.number >= leader.number
  }

  /** A handoff in a newly written layout is either the one that was there or carries the new version. */
  predicate Legal(w: World, next: Assign, change: Change) {
    && w.layouts != []
    && var cur, version := w.layouts[Newest(w)], |w.layouts|;
    && (next.leader != LM.Nobody ==> next.leader in next.holders)
    && (next.handoff.Some? ==> next.leader != LM.Nobody)
    && match change
       case Same =>
         && next.epoch == cur.epoch && next.leader == cur.leader
         && (next.handoff == cur.handoff || next.handoff.None? || next.handoff.value.version == version)
       case Lost => next.epoch == cur.epoch && next.leader == LM.Nobody && next.handoff.None?
       case Failover =>
         next.epoch == cur.epoch + 1 && next.leader != LM.Nobody && (next.handoff.None? || next.handoff.value.version == version)
       case Complete(leader, target) =>
         && leader in w.reports && target in w.reports && MayComplete(cur, leader, target)
         && next.epoch == cur.epoch + 1 && next.leader == cur.handoff.value.to
         && (next.handoff.None? || next.handoff.value.version == version)
  }

  predicate Enabled(w: World, step: Step) {
    match step
    case Internal(s) => IsInternal(w, s)
    case Observe(id, v, _) => id != LM.Nobody && SeenOf(w, id) < v < |w.layouts|
    case Poll(id, v) => id in w.c.reps && v <= SeenOf(w, id)
    case Publish(next, change) => Legal(w, next, change)
  }

  function Status(w: World, id: Id, version: nat): Report
    requires id in w.c.reps
  {
    var r := w.c.reps[id];
    Report(id, version, r.sealed, r.Seq(), r.dataEpoch, SeenOf(w, id), LifeOf(w, id), LM.HistoryOf(w.c, id))
  }

  /** Completed handoffs whose target starts to lead with the data it reported. */
  function NowKept(w: World, id: Id, a: Assign): map<Done, int> {
    if a.leader == id && id in w.c.reps && LM.Follows(w.c, id) && id in a.holders
    then map d | d in w.done && d.to == id && d !in w.kept && d.target.life == LifeOf(w, id) :: a.epoch
    else map[]
  }

  function Next(w: World, step: Step): World
    requires Enabled(w, step)
  {
    match step
    case Internal(s) =>
      w.(c := LM.Next(w.c, s),
         lives := if s.Deliver? && Reloads(w.c, s, s.id) then w.lives[s.id := LifeOf(w, s.id) + 1] else w.lives)
    case Observe(id, v, retain) =>
      var a := w.layouts[v];
      var c := Reconcile(w.c, id, a, retain);
      w.(c := c, seen := w.seen[id := v],
         lives := if LosesData(w.c, id, a) then w.lives[id := LifeOf(w, id) + 1] else w.lives,
         led := if a.epoch in c.epochs && a.epoch !in w.c.epochs then w.led[a.epoch := (id, v)] else w.led,
         kept := w.kept + NowKept(w, id, a))
    case Poll(id, v) => w.(reports := w.reports + {Status(w, id, v)})
    case Publish(next, change) =>
      var cur := w.layouts[Newest(w)];
      w.(layouts := w.layouts + [next],
         done := if change.Complete?
                 then w.done + {Done(cur.epoch, cur.leader, next.leader, cur.handoff.value.version, |w.layouts|, change.leader, change.target)}
                 else w.done)
  }

  const NOBODY := Assign(0, LM.Nobody, {}, None)

  predicate Initial(w: World) {
    w == World(LM.Cluster(map[], map[], map[], map[]), [NOBODY], map[], map[], map[], {}, {}, map[])
  }

  // ----- the invariant -----

  /** What the published layouts satisfy from one version to the next. */
  ghost predicate LayoutsOk(ls: seq<Assign>) {
    && |ls| > 0 && ls[0] == NOBODY
    && (forall v :: 0 <= v < |ls| ==> (ls[v].leader != LM.Nobody ==> ls[v].leader in ls[v].holders && ls[v].epoch > 0) && ls[v].epoch >= 0)
    && (forall u, v :: 0 <= u <= v < |ls| ==> ls[u].epoch <= ls[v].epoch)
    && (forall u, v :: 0 <= u <= v < |ls| && ls[u].epoch == ls[v].epoch && ls[v].leader != LM.Nobody ==> ls[u].leader == ls[v].leader)
    && (forall v :: 0 <= v < |ls| && ls[v].handoff.Some? ==> HandoffSince(ls, v))
  }

  /** Since the version a handoff names, nothing about it changed. */
  ghost predicate HandoffSince(ls: seq<Assign>, v: nat)
    requires v < |ls| && ls[v].handoff.Some?
  {
    && ls[v].leader != LM.Nobody && ls[v].handoff.value.version <= v
    && forall u :: ls[v].handoff.value.version <= u <= v ==>
         ls[u].handoff == ls[v].handoff && ls[u].epoch == ls[v].epoch && ls[u].leader == ls[v].leader
  }

  /** A replica is exactly what the newest layout its node applied says. */
  ghost predicate RoleOk(w: World, id: Id)
    requires SeenOf(w, id) < |w.layouts|
  {
    var a := w.layouts[SeenOf(w, id)];
    && (id in w.c.reps <==> id in a.holders)
    && (id in w.c.reps ==>
          var r := w.c.reps[id];
          && (r.role.Leader? <==> a.leader == id)
          && r.epoch == a.epoch
          && (r.sealed <==> a.leader == id && a.handoff.Some?))
  }

  ghost predicate LedOk(w: World, e: int)
    requires e in w.led
  {
    var (id, u) := w.led[e];
    id != LM.Nobody && u <= SeenOf(w, id) && u < |w.layouts| && w.layouts[u].leader == id && w.layouts[u].epoch == e
  }

  /** From position n on, the history has no client write. */
  ghost predicate QuietFrom(h: seq<Op>, n: int) {
    0 <= n <= |h| && forall i :: n <= i < |h| ==> h[i].Checkpoint?
  }

  ghost predicate ReportOk(w: World, r: Report) {
    && r.version <= r.seenAt <= SeenOf(w, r.id) && r.seenAt < |w.layouts|
    && r.number == |r.history|
    && (r.dataEpoch > 0 ==> r.dataEpoch in w.c.epochs && r.history <= w.c.epochs[r.dataEpoch])
    && r.life <= LifeOf(w, r.id)
    && (r.life == LifeOf(w, r.id) ==> r.id in w.c.reps && r.history <= LM.HistoryOf(w.c, r.id))
    && (r.sealed ==> w.layouts[r.seenAt].leader == r.id && w.layouts[r.seenAt].handoff.Some?)
    && (r.sealed && SeenOf(w, r.id) < |w.layouts| && w.layouts[SeenOf(w, r.id)].handoff == w.layouts[r.seenAt].handoff ==>
          var e := w.layouts[r.seenAt].epoch;
          e in w.c.epochs && QuietFrom(w.c.epochs[e], r.number))
  }

  ghost predicate DoneOk(w: World, d: Done) {
    && d.epoch > 0 && d.epoch in w.c.epochs
    && QuietFrom(w.c.epochs[d.epoch], d.leader.number)
    && d.start <= SeenOf(w, d.from) && d.start < d.version < |w.layouts|
    && (forall u :: d.start <= u < d.version ==>
          w.layouts[u].leader == d.from && w.layouts[u].epoch == d.epoch && w.layouts[u].handoff.Some?)
    && w.layouts[d.version].epoch > d.epoch
    && d.target in w.reports && d.target.id == d.to && d.target.dataEpoch == d.epoch && d.target.number >= d.leader.number
  }

  ghost predicate KeptOk(w: World, d: Done)
    requires d in w.kept
  {
    w.kept[d] in w.c.epochs && d.target.history <= w.c.epochs[w.kept[d]]
  }

  ghost predicate Inv(w: World) {
    && LM.Inv(w.c) && LayoutsOk(w.layouts)
    && (forall id :: SeenOf(w, id) < |w.layouts| && RoleOk(w, id))
    && w.led.Keys == w.c.epochs.Keys && (forall e :: e in w.led ==> LedOk(w, e))
    && (forall r :: r in w.reports ==> ReportOk(w, r))
    && (forall d :: d in w.done ==> DoneOk(w, d))
    && (forall d :: d in w.kept ==> d in w.done && KeptOk(w, d))
  }

  // ----- internal steps -----

  /** No unsealed replica leads epoch e, so no client write can extend its history. */
  ghost predicate Guarded(c: LM.Cluster, e: int) {
    forall id :: LM.Leads(c, id) && c.reps[id].epoch == e ==> c.reps[id].sealed
  }

  ghost predicate Later(c: LM.Cluster, c': LM.Cluster) {
    && c'.epochs.Keys >= c.epochs.Keys
    && (forall e :: e in c.epochs ==> c.epochs[e] <= c'.epochs[e])
    && (forall e, n :: e in c.epochs && QuietFrom(c.epochs[e], n) && Guarded(c, e) ==> QuietFrom(c'.epochs[e], n))
  }

  /** Roles and assignments are untouched. */
  ghost predicate SameRoles(c: LM.Cluster, c': LM.Cluster) {
    && c'.reps.Keys == c.reps.Keys
    && forall id :: id in c.reps ==>
         c'.reps[id].role == c.reps[id].role && c'.reps[id].epoch == c.reps[id].epoch && c'.reps[id].sealed == c.reps[id].sealed
  }

  lemma AppendEffect(c: LM.Cluster, l: Id, ops: seq<Op>, r: Rep)
    requires LM.Inv(c) && LM.Leads(c, l) && r == c.reps[l].(ops := r.ops, walBase := r.walBase)
    requires c.reps[l].sealed ==> forall i :: 0 <= i < |ops| ==> ops[i].Checkpoint?
    ensures var c' := LM.Append(c, l, ops, r);
      Later(c, c') && SameRoles(c, c') && c'.epochs.Keys == c.epochs.Keys
      && forall id :: id in c.reps ==> LM.HistoryOf(c, id) <= LM.HistoryOf(c', id)
  {
    hide LM.Inv, LM.Faithful, LM.FlightOk, Replay;
    LM.GoodOf(c, l);
    var c' := LM.Append(c, l, ops, r);
    forall e, n | e in c.epochs && QuietFrom(c.epochs[e], n) && Guarded(c, e)
      ensures QuietFrom(c'.epochs[e], n)
    {
      if e == r.epoch {
        assert c.reps[l].sealed;
      }
    }
  }

  /** Replacing one replica without touching its assignment or any epoch. */
  lemma PutEffect(c: LM.Cluster, id: Id, r: Rep, h: seq<Op>, f: Option<LM.Flight>)
    requires id in c.reps
    requires r.role == c.reps[id].role && r.epoch == c.reps[id].epoch && r.sealed == c.reps[id].sealed
    ensures var c' := LM.Put(c, id, r, h, f, c.epochs);
      Later(c, c') && SameRoles(c, c') && c'.epochs.Keys == c.epochs.Keys
      && forall j :: j in c.reps && (j != id || LM.HistoryOf(c, id) <= h) ==> LM.HistoryOf(c, j) <= LM.HistoryOf(c', j)
  {}

  ghost predicate Quiet(c: LM.Cluster, c': LM.Cluster, step: LM.Step) {
    && Later(c, c') && SameRoles(c, c') && c'.epochs.Keys == c.epochs.Keys
    && forall id :: id in c.reps && !Reloads(c, step, id) ==> LM.HistoryOf(c, id) <= LM.HistoryOf(c', id)
  }

  lemma DeliverLogEffect(c: LM.Cluster, id: Id)
    requires LM.Inv(c) && id in c.flights && c.flights[id].LogReply?
    ensures Quiet(c, LM.Next(c, LM.Deliver(id)), LM.Deliver(id))
  {
    hide Later, SameRoles, LM.Put, LM.Faithful, LM.Matches, Replay, Numbered, Rep.Content, Rep.Ingest, Rep.ApplyLogEntries;
    var r, h, f := c.reps[id], LM.HistoryOf(c, id), c.flights[id];
    LM.GoodOf(c, id);
    LM.FaithfulContent(r, h);
    AppliedFields(r, f.from, f.batch, f.leaderEpoch);
    PutEffect(c, id, r.ApplyLogEntries(Numbered(f.from, f.batch), f.leaderEpoch), h + f.batch, None);
  }

  lemma DeliverEffect(c: LM.Cluster, id: Id)
    requires LM.Inv(c) && LM.Enabled(c, LM.Deliver(id))
    ensures Quiet(c, LM.Next(c, LM.Deliver(id)), LM.Deliver(id))
  {
    hide Later, SameRoles, LM.Put, LM.Faithful, LM.Matches, Replay, Rep.ApplyLogEntries;
    var r, f := c.reps[id], c.flights[id];
    LM.GoodOf(c, id);
    if f.LogReply? {
      DeliverLogEffect(c, id);
    } else if f.SnapshotReply? {
      PutEffect(c, id, r.Load(f.snap), f.history, None);
    } else {
      PutEffect(c, id, r.Emptied(), [], None);
    }
  }

  lemma AppliedFields(r: Rep, from: int, batch: seq<Op>, e: int)
    requires from <= r.Seq()
    ensures var r' := r.ApplyLogEntries(Numbered(from, batch), e);
      r'.role == r.role && r'.epoch == r.epoch && r'.sealed == r.sealed
  {
    IngestBatch(r, from, batch);
  }

  lemma ServeSnapshotEffect(c: LM.Cluster, l: Id, id: Id)
    requires LM.Inv(c) && LM.Enabled(c, LM.ServeSnapshot(l, id))
    ensures Quiet(c, LM.Next(c, LM.ServeSnapshot(l, id)), LM.ServeSnapshot(l, id))
  {
    var r := c.reps[l].Log(Checkpoint);
    AppendEffect(c, l, [Checkpoint], r);
    LM.GoodOf(c, id);
    var t := LM.Append(c, l, [Checkpoint], r);
    var reply := LM.SnapshotReply(Snapshot(r.epoch, r.Seq(), r.Content()), LM.HistoryOf(t, l));
    PutEffect(t, id, t.reps[id], LM.HistoryOf(t, id), Some(reply));
    var t' := LM.Put(t, id, t.reps[id], LM.HistoryOf(t, id), Some(reply), t.epochs);
    assert t'.epochs == t.epochs;
  }

  lemma ServeLogEffect(c: LM.Cluster, l: Id, id: Id, max: nat)
    requires LM.Inv(c) && LM.Enabled(c, LM.ServeLog(l, id, max))
    ensures Quiet(c, LM.Next(c, LM.ServeLog(l, id, max)), LM.ServeLog(l, id, max))
  {
    LM.GoodOf(c, id);
    var f := LM.Next(c, LM.ServeLog(l, id, max)).flights[id];
    PutEffect(c, id, c.reps[id], LM.HistoryOf(c, id), Some(f));
  }

  lemma InternalEffect(w: World, step: LM.Step)
    requires LM.Inv(w.c) && IsInternal(w, step)
    ensures Quiet(w.c, LM.Next(w.c, step), step)
  {
    var c := w.c;
    match step
    case Write(id, op, flush) =>
      AppendEffect(c, id, if flush then [op, Checkpoint] else [op], c.reps[id].Write(op, flush));
    case ServeSnapshot(l, id) => ServeSnapshotEffect(c, l, id);
    case ServeLog(l, id, max) => ServeLogEffect(c, l, id, max);
    case Deliver(id) => DeliverEffect(c, id);
    case RequestSnapshot(id) =>
      PutEffect(c, id, c.reps[id], LM.HistoryOf(c, id), Some(LM.AskSnapshot(c.reps[id].epoch)));
    case RequestLog(id) =>
      PutEffect(c, id, c.reps[id], LM.HistoryOf(c, id), Some(LM.AskLog(c.reps[id].epoch, c.reps[id].dataEpoch, c.reps[id].Seq())));
    case Lose(id) =>
      LM.GoodOf(c, id);
      PutEffect(c, id, c.reps[id], LM.HistoryOf(c, id), None);
  }

  // ----- applying a layout -----

  /** If anyone ever led the epoch a node is told to lead, that node leads it right now. */
  lemma OwnEpoch(w: World, id: Id, v: nat)
    requires Inv(w) && id != LM.Nobody && SeenOf(w, id) < v < |w.layouts| && w.layouts[v].leader == id
    ensures w.layouts[v].epoch > 0
    ensures w.layouts[v].epoch in w.c.epochs ==> LM.Leads(w.c, id) && w.c.reps[id].epoch == w.layouts[v].epoch
  {
    var e := w.layouts[v].epoch;
    if e in w.c.epochs {
      assert LedOk(w, e);
      var (id', u) := w.led[e];
      assert w.layouts[u].leader == w.layouts[v].leader;
      assert RoleOk(w, id);
    }
  }

  /** What one node's reconcile changes. */
  ghost predicate Reconciled(c: LM.Cluster, c': LM.Cluster, id: Id, a: Assign) {
    && (forall j :: j != id ==> (j in c'.reps <==> j in c.reps) && (j in c.reps ==> c'.reps[j] == c.reps[j]))
    && (forall j :: j != id ==> LM.HistoryOf(c', j) == LM.HistoryOf(c, j))
    && (id in c'.reps <==> id in a.holders)
    && (id in c'.reps ==>
          var r := c'.reps[id];
          && (r.role.Leader? <==> a.leader == id) && r.epoch == a.epoch
          && (r.sealed <==> a.leader == id && a.handoff.Some?))
    && (!LosesData(c, id, a) ==> LM.HistoryOf(c', id) == LM.HistoryOf(c, id))
    && (c'.epochs == c.epochs ||
          (a.leader == id && a.epoch !in c.epochs && c'.epochs == c.epochs[a.epoch := LM.HistoryOf(c', id)]))
    && (a.leader == id && a.epoch !in c.epochs && id in a.holders ==> c'.epochs == c.epochs[a.epoch := LM.HistoryOf(c', id)])
  }

  lemma DoKeepsInv(c: LM.Cluster, step: LM.Step)
    requires LM.Inv(c)
    ensures LM.Inv(Do(c, step))
  {
    if LM.Enabled(c, step) {
      LM.StepKeepsInv(c, step);
    }
  }

  lemma ReconcileKeepsInv(c: LM.Cluster, id: Id, a: Assign, retain: nat)
    requires LM.Inv(c)
    ensures LM.Inv(Reconcile(c, id, a, retain))
  {
    hide LM.Inv, Do;
    DoKeepsInv(c, LM.Drop(id));
    var created := Do(c, LM.Create(id, retain));
    DoKeepsInv(c, LM.Create(id, retain));
    DoKeepsInv(created, LM.Lead(id, a.epoch));
    DoKeepsInv(created, LM.Follow(id, a.epoch));
    DoKeepsInv(c, LM.Promote(id, a.epoch));
    DoKeepsInv(c, LM.Seal(id, a.handoff.Some?));
    DoKeepsInv(Do(created, LM.Lead(id, a.epoch)), LM.Seal(id, a.handoff.Some?));
    DoKeepsInv(Do(c, LM.Promote(id, a.epoch)), LM.Seal(id, a.handoff.Some?));
  }

  lemma ReconcileEffect(c: LM.Cluster, id: Id, a: Assign, retain: nat)
    requires LM.Inv(c) && (a.leader == id ==> id in a.holders)
    requires a.leader == id && !(LM.Leads(c, id) && c.reps[id].epoch == a.epoch) ==> a.epoch > 0 && a.epoch !in c.epochs
    ensures Reconciled(c, Reconcile(c, id, a, retain), id, a)
  {
    if id !in a.holders {
      DropEffect(c, id, a);
    } else if a.leader == id {
      LeadEffect(c, id, a, retain);
    } else {
      FollowEffect(c, id, a, retain);
    }
  }

  lemma DropEffect(c: LM.Cluster, id: Id, a: Assign)
    requires LM.Inv(c) && id !in a.holders && a.leader != id
    ensures Reconciled(c, Do(c, LM.Drop(id)), id, a)
  {
    hide LM.Good;
    var c' := Do(c, LM.Drop(id));
    assert c'.epochs == c.epochs && id !in c'.reps;
    assert LosesData(c, id, a);
  }

  lemma PutPut(c: LM.Cluster, id: Id, r: Rep, h: seq<Op>, f: Option<LM.Flight>, epochs: map<int, seq<Op>>,
               r': Rep, h': seq<Op>, f': Option<LM.Flight>, epochs': map<int, seq<Op>>)
    ensures LM.Put(LM.Put(c, id, r, h, f, epochs), id, r', h', f', epochs') == LM.Put(c, id, r', h', f', epochs')
  {
    var l, s := LM.Put(LM.Put(c, id, r, h, f, epochs), id, r', h', f', epochs'), LM.Put(c, id, r', h', f', epochs');
    assert l.reps == s.reps && l.history == s.history && l.flights == s.flights;
  }

  lemma PutReconciled(c: LM.Cluster, id: Id, r: Rep, h: seq<Op>, f: Option<LM.Flight>, epochs: map<int, seq<Op>>, a: Assign)
    requires id in a.holders && (r.role.Leader? <==> a.leader == id) && r.epoch == a.epoch
    requires r.sealed <==> a.leader == id && a.handoff.Some?
    requires !LosesData(c, id, a) ==> h == LM.HistoryOf(c, id)
    requires if a.leader == id && a.epoch !in c.epochs then epochs == c.epochs[a.epoch := h] else epochs == c.epochs
    ensures Reconciled(c, LM.Put(c, id, r, h, f, epochs), id, a)
  {}

  lemma LeadEffect(c: LM.Cluster, id: Id, a: Assign, retain: nat)
    requires LM.Inv(c) && id in a.holders && a.leader == id
    requires !(LM.Leads(c, id) && c.reps[id].epoch == a.epoch) ==> a.epoch > 0 && a.epoch !in c.epochs
    ensures Reconciled(c, Reconcile(c, id, a, retain), id, a)
  {
    hide Reconciled, LM.Put, LM.Faithful, LM.FlightOk, LosesData;
    var h, on := LM.HistoryOf(c, id), a.handoff.Some?;
    if id !in c.reps {
      CreateLeadIsPut(c, id, a, retain);
    } else if !LM.Leads(c, id) || c.reps[id].epoch != a.epoch {
      PromoteIsPut(c, id, a);
      PutReconciled(c, id, c.reps[id].Promote(a.epoch).(sealed := on), h, None, c.epochs[a.epoch := h], a);
    } else {
      LM.GoodOf(c, id);
      PutReconciled(c, id, c.reps[id].(sealed := on), h, LM.FlightOf(c, id), c.epochs, a);
    }
  }

  lemma CreateLeadIsPut(c: LM.Cluster, id: Id, a: Assign, retain: nat)
    requires id !in c.reps && id in a.holders && a.leader == id && a.epoch > 0 && a.epoch !in c.epochs
    ensures Reconciled(c, Do(Do(Do(c, LM.Create(id, retain)), LM.Lead(id, a.epoch)), LM.Seal(id, a.handoff.Some?)), id, a)
  {
    var epochs, r1 := c.epochs[a.epoch := []], Fresh(retain);
    var r2 := r1.LeadFresh(a.epoch);
    var r3 := r2.(sealed := a.handoff.Some?);
    PutPut(c, id, r1, [], None, c.epochs, r2, [], None, epochs);
    PutPut(c, id, r2, [], None, epochs, r3, [], None, epochs);
    assert Do(c, LM.Create(id, retain)) == LM.Put(c, id, r1, [], None, c.epochs);
    assert Do(LM.Put(c, id, r1, [], None, c.epochs), LM.Lead(id, a.epoch)) == LM.Put(c, id, r2, [], None, epochs);
    assert Do(LM.Put(c, id, r2, [], None, epochs), LM.Seal(id, a.handoff.Some?)) == LM.Put(c, id, r3, [], None, epochs);
    PutReconciled(c, id, r3, [], None, epochs, a);
  }

  lemma PromoteIsPut(c: LM.Cluster, id: Id, a: Assign)
    requires id in c.reps && a.epoch > 0 && a.epoch !in c.epochs
    ensures var h := LM.HistoryOf(c, id);
      Do(Do(c, LM.Promote(id, a.epoch)), LM.Seal(id, a.handoff.Some?)) ==
      LM.Put(c, id, c.reps[id].Promote(a.epoch).(sealed := a.handoff.Some?), h, None, c.epochs[a.epoch := h])
  {
    var h := LM.HistoryOf(c, id);
    var r := c.reps[id].Promote(a.epoch);
    PutPut(c, id, r, h, None, c.epochs[a.epoch := h], r.(sealed := a.handoff.Some?), h, None, c.epochs[a.epoch := h]);
  }

  lemma FollowEffect(c: LM.Cluster, id: Id, a: Assign, retain: nat)
    requires LM.Inv(c) && id in a.holders && a.leader != id
    ensures Reconciled(c, Reconcile(c, id, a, retain), id, a)
  {
    if id in c.reps {
      var r := c.reps[id];
      PutReconciled(c, id, r.Follow(a.epoch), if r.role.Leader? then [] else LM.HistoryOf(c, id), LM.FlightOf(c, id), c.epochs, a);
    } else {
      var r := Fresh(retain);
      PutPut(c, id, r, [], None, c.epochs, r.Follow(a.epoch), [], None, c.epochs);
      PutReconciled(c, id, r.Follow(a.epoch), [], None, c.epochs, a);
    }
  }

  // ----- every step keeps the invariant -----

  /** Two layouts with the same epoch do not name two leaders. */
  lemma OneLeader(ls: seq<Assign>, u: nat, v: nat)
    requires LayoutsOk(ls) && u < |ls| && v < |ls| && ls[u].epoch == ls[v].epoch && ls[u].leader != LM.Nobody && ls[v].leader != LM.Nobody
    ensures ls[u].leader == ls[v].leader
  {
    if u <= v {
      assert ls[u].leader == ls[v].leader;
    } else {
      assert ls[v].leader == ls[u].leader;
    }
  }

  /** While its node's newest layout still shows the reported handoff, the reporter's epoch is guarded. */
  lemma ReporterGuards(w: World, r: Report)
    requires Inv(w) && r in w.reports && r.sealed && w.layouts[SeenOf(w, r.id)].handoff == w.layouts[r.seenAt].handoff
    ensures Guarded(w.c, w.layouts[r.seenAt].epoch)
  {
    hide DoneOk, KeptOk, LM.Faithful, LM.FlightOk, Replay;
    assert ReportOk(w, r);
    var e := w.layouts[r.seenAt].epoch;
    forall id | LM.Leads(w.c, id) && w.c.reps[id].epoch == e
      ensures w.c.reps[id].sealed
    {
      assert RoleOk(w, id) && RoleOk(w, r.id);
      var a := w.layouts[SeenOf(w, id)];
      assert HandoffSince(w.layouts, r.seenAt);
      if id != LM.Nobody {
        OneLeader(w.layouts, SeenOf(w, id), r.seenAt);
      }
    }
  }

  /** A completed handoff leaves nobody who could still write in the old epoch. */
  lemma DoneGuards(w: World, d: Done)
    requires Inv(w) && d in w.done
    ensures Guarded(w.c, d.epoch)
  {
    assert DoneOk(w, d);
    forall id | LM.Leads(w.c, id) && w.c.reps[id].epoch == d.epoch
      ensures w.c.reps[id].sealed
    {
      assert RoleOk(w, id);
      var v := SeenOf(w, id);
      assert w.layouts[d.start].leader == d.from && w.layouts[d.start].epoch == d.epoch;
      assert HandoffSince(w.layouts, d.start);
      if id != LM.Nobody {
        OneLeader(w.layouts, v, d.start);
      }
      assert v < d.version;
    }
  }

  lemma ReportOf(w: World, r: Report)
    requires Inv(w) && r in w.reports
    ensures ReportOk(w, r)
    ensures SeenOf(w, r.id) < |w.layouts|
  {}

  lemma DoneOf(w: World, d: Done)
    requires Inv(w) && d in w.done
    ensures DoneOk(w, d)
    ensures d in w.kept ==> KeptOk(w, d)
  {}

  lemma RoleOf(w: World, id: Id)
    requires Inv(w)
    ensures SeenOf(w, id) < |w.layouts| && RoleOk(w, id)
  {}

  lemma LedOf(w: World)
    requires Inv(w)
    ensures w.led.Keys == w.c.epochs.Keys
    ensures forall e :: e in w.led ==> LedOk(w, e)
  {}

  /** The effect of an internal step on the world, without its mechanics. */
  ghost predicate Advanced(w: World, w': World, step: LM.Step) {
    && w' == w.(c := w'.c, lives := w'.lives)
    && Quiet(w.c, w'.c, step)
    && (forall id :: LifeOf(w', id) == if Reloads(w.c, step, id) then LifeOf(w, id) + 1 else LifeOf(w, id))
  }

  lemma InternalAdvances(w: World, step: LM.Step)
    requires Inv(w) && IsInternal(w, step)
    ensures Advanced(w, Next(w, Internal(step)), step) && LM.Inv(Next(w, Internal(step)).c)
  {
    hide LM.Inv, Quiet, LayoutsOk, RoleOk, LedOk, ReportOk, DoneOk, KeptOk, LM.Next;
    LM.StepKeepsInv(w.c, step);
    InternalEffect(w, step);
  }

  lemma AdvancedReport(w: World, w': World, step: LM.Step, r: Report)
    requires Inv(w) && Advanced(w, w', step) && r in w.reports
    ensures ReportOk(w', r)
  {
    hide Inv, LayoutsOk, Guarded;
    ReportOf(w, r);
    assert SeenOf(w', r.id) == SeenOf(w, r.id);
    if r.sealed && w.layouts[SeenOf(w, r.id)].handoff == w.layouts[r.seenAt].handoff {
      ReporterGuards(w, r);
    }
  }

  lemma AdvancedDone(w: World, w': World, step: LM.Step, d: Done)
    requires Inv(w) && Advanced(w, w', step) && d in w.done
    ensures DoneOk(w', d)
    ensures d in w.kept ==> KeptOk(w', d)
  {
    hide Inv, LayoutsOk, Guarded;
    DoneOf(w, d);
    DoneGuards(w, d);
    assert SeenOf(w', d.from) == SeenOf(w, d.from);
    if d in w.kept {
      var e := w.kept[d];
      assert d.target.history <= w.c.epochs[e] <= w'.c.epochs[e];
    }
  }

  lemma AdvancedRoles(w: World, w': World, step: LM.Step)
    requires Inv(w) && Advanced(w, w', step)
    ensures forall id :: SeenOf(w', id) < |w'.layouts| && RoleOk(w', id)
    ensures w'.led.Keys == w'.c.epochs.Keys && (forall e :: e in w'.led ==> LedOk(w', e))
  {
    hide Inv, LayoutsOk, Later, Guarded;
    forall id
      ensures SeenOf(w', id) < |w'.layouts| && RoleOk(w', id)
    {
      RoleOf(w, id);
      assert SeenOf(w', id) == SeenOf(w, id);
    }
    LedOf(w);
    forall e | e in w'.led
      ensures LedOk(w', e)
    {
      assert LedOk(w, e);
    }
  }

  lemma InternalKeepsInv(w: World, step: LM.Step)
    requires Inv(w) && IsInternal(w, step)
    ensures Inv(Next(w, Internal(step)))
  {
    hide LM.Inv, IsInternal, Quiet, LayoutsOk, RoleOk, LedOk, ReportOk, DoneOk, KeptOk;
    var w' := Next(w, Internal(step));
    InternalAdvances(w, step);
    AdvancedRoles(w, w', step);
    forall r | r in w.reports { AdvancedReport(w, w', step, r); }
    forall d | d in w.done { AdvancedDone(w, w', step, d); }
  }

  lemma StatusOk(w: World, id: Id, v: nat)
    requires Inv(w) && Enabled(w, Poll(id, v))
    ensures ReportOk(w, Status(w, id, v))
  {
    hide LayoutsOk, LM.Faithful, Replay, LedOk, DoneOk, KeptOk;
    var r := w.c.reps[id];
    LM.GoodOf(w.c, id);
    LM.FaithfulContent(r, LM.HistoryOf(w.c, id));
    RoleOf(w, id);
  }

  lemma SameExceptReports(w: World, w': World)
    requires Inv(w) && w' == w.(reports := w'.reports) && w.reports <= w'.reports
    ensures forall id :: SeenOf(w', id) < |w'.layouts| && RoleOk(w', id)
    ensures forall e :: e in w'.led ==> LedOk(w', e)
    ensures forall r :: ReportOk(w, r) ==> ReportOk(w', r)
    ensures forall d :: d in w'.done ==> DoneOk(w', d)
    ensures forall d :: d in w'.kept ==> KeptOk(w', d)
  {
    hide LM.Inv, LayoutsOk, QuietFrom;
    forall id
      ensures SeenOf(w', id) < |w'.layouts| && RoleOk(w', id)
    {
      RoleOf(w, id);
      assert SeenOf(w', id) == SeenOf(w, id);
    }
    forall e | e in w'.led ensures LedOk(w', e) { assert LedOk(w, e); }
    forall d | d in w'.done ensures DoneOk(w', d) { assert DoneOk(w, d); }
    forall d | d in w'.kept ensures KeptOk(w', d) { assert KeptOk(w, d); }
  }

  /** Polling changes nothing but the set of reports. */
  lemma PollKeepsInv(w: World, id: Id, v: nat)
    requires Inv(w) && Enabled(w, Poll(id, v))
    ensures Inv(Next(w, Poll(id, v)))
  {
    hide LM.Inv, LayoutsOk, RoleOk, LedOk, ReportOk, DoneOk, KeptOk, Status;
    StatusOk(w, id, v);
    SameExceptReports(w, Next(w, Poll(id, v)));
  }

  // ----- applying a layout keeps the invariant -----

  /** The effect of a node applying a layout, without the mechanics of reconcile. */
  ghost predicate Applied(w: World, w': World, id: Id, v: nat) {
    && v < |w.layouts| && SeenOf(w, id) < v && id != LM.Nobody
    && var a := w.layouts[v];
    && w' == w.(c := w'.c, seen := w.seen[id := v], lives := w'.lives, led := w'.led, kept := w.kept + NowKept(w, id, a))
    && Reconciled(w.c, w'.c, id, a)
    && w'.led == (if a.epoch in w'.c.epochs && a.epoch !in w.c.epochs then w.led[a.epoch := (id, v)] else w.led)
    && (forall j :: LifeOf(w', j) == if j == id && LosesData(w.c, id, a) then LifeOf(w, j) + 1 else LifeOf(w, j))
    && (a.leader == id ==> a.epoch in w.c.epochs ==> LM.Leads(w.c, id))
  }

  lemma ObserveApplies(w: World, id: Id, v: nat, retain: nat)
    requires Inv(w) && Enabled(w, Observe(id, v, retain))
    ensures var w' := Next(w, Observe(id, v, retain)); Applied(w, w', id, v) && LM.Inv(w'.c)
  {
    hide LM.Inv, RoleOk, LedOk, ReportOk, DoneOk, KeptOk, HandoffSince, Reconcile, Reconciled;
    var a := w.layouts[v];
    if a.leader == id {
      OwnEpoch(w, id, v);
    }
    ReconcileKeepsInv(w.c, id, a, retain);
    ReconcileEffect(w.c, id, a, retain);
  }

  lemma AppliedReport(w: World, w': World, id: Id, v: nat, r: Report)
    requires Inv(w) && Applied(w, w', id, v) && r in w.reports
    ensures ReportOk(w', r)
  {
    hide Inv, RoleOk, NowKept, HandoffSince;
    ReportOf(w, r);
    assert r.id != id ==> SeenOf(w', r.id) == SeenOf(w, r.id);
    if r.sealed && w.layouts[SeenOf(w', r.id)].handoff == w.layouts[r.seenAt].handoff && r.id == id {
      SameHandoffBetween(w, r.seenAt, SeenOf(w, id), v);
    }
  }

  /** If two layouts show the same handoff, so do all between them. */
  lemma SameHandoffBetween(w: World, t: nat, u: nat, v: nat)
    requires Inv(w) && t <= u <= v < |w.layouts|
    requires w.layouts[t].handoff.Some? && w.layouts[v].handoff == w.layouts[t].handoff
    ensures w.layouts[u].handoff == w.layouts[t].handoff
  {
    assert HandoffSince(w.layouts, v) && HandoffSince(w.layouts, t);
  }

  lemma AppliedDone(w: World, w': World, id: Id, v: nat, d: Done)
    requires Inv(w) && Applied(w, w', id, v) && d in w.done
    ensures DoneOk(w', d)
    ensures d in w.kept ==> KeptOk(w', d) || d in NowKept(w, id, w.layouts[v])
  {
    hide Inv, RoleOk, NowKept, HandoffSince;
    DoneOf(w, d);
    assert SeenOf(w', d.from) >= SeenOf(w, d.from);
  }

  /** The target starts to lead with everything it reported. */
  lemma NowKeptOk(w: World, w': World, id: Id, v: nat, d: Done)
    requires Inv(w) && Applied(w, w', id, v) && d in NowKept(w, id, w.layouts[v])
    ensures d in w.done && KeptOk(w', d)
  {
    hide Inv, RoleOk, HandoffSince;
    DoneOf(w, d);
    ReportOf(w, d.target);
  }

  lemma AppliedRoles(w: World, w': World, id: Id, v: nat)
    requires Inv(w) && Applied(w, w', id, v)
    ensures forall j :: SeenOf(w', j) < |w'.layouts| && RoleOk(w', j)
    ensures w'.led.Keys == w'.c.epochs.Keys && (forall e :: e in w'.led ==> LedOk(w', e))
  {
    hide Inv, HandoffSince, NowKept;
    forall j
      ensures SeenOf(w', j) < |w'.layouts| && RoleOk(w', j)
    {
      RoleOf(w, j);
      assert j != id ==> SeenOf(w', j) == SeenOf(w, j);
    }
    LedOf(w);
    forall e | e in w'.led
      ensures LedOk(w', e)
    {
      assert e in w.led ==> LedOk(w, e);
    }
  }

  lemma ObserveKeepsInv(w: World, id: Id, v: nat, retain: nat)
    requires Inv(w) && Enabled(w, Observe(id, v, retain))
    ensures Inv(Next(w, Observe(id, v, retain)))
  {
    hide LM.Inv, LayoutsOk, RoleOk, LedOk, ReportOk, DoneOk, KeptOk, Reconcile, Reconciled, NowKept;
    var w' := Next(w, Observe(id, v, retain));
    ObserveApplies(w, id, v, retain);
    AppliedRoles(w, w', id, v);
    forall r | r in w.reports { AppliedReport(w, w', id, v, r); }
    forall d | d in w.done { AppliedDone(w, w', id, v, d); }
    forall d | d in NowKept(w, id, w.layouts[v]) { NowKeptOk(w, w', id, v, d); }
  }

  // ----- publishing keeps the invariant -----

  lemma PublishLayouts(w: World, next: Assign, change: Change)
    requires LayoutsOk(w.layouts) && Legal(w, next, change)
    ensures LayoutsOk(w.layouts + [next])
  {
    var ls, ls' := w.layouts, w.layouts + [next];
    forall v | 0 <= v < |ls'| && ls'[v].handoff.Some?
      ensures HandoffSince(ls', v)
    {
      if v < |ls| {
        assert HandoffSince(ls, v);
      } else if next.handoff == ls[|ls| - 1].handoff {
        assert HandoffSince(ls, |ls| - 1);
      }
    }
  }

  /** Appending a layout disturbs nothing that is about earlier versions. */
  lemma PublishedOk(w: World, w': World)
    requires Inv(w) && w' == w.(layouts := w'.layouts, done := w'.done) && w.layouts <= w'.layouts
    ensures forall id :: SeenOf(w', id) < |w'.layouts| && RoleOk(w', id)
    ensures forall e :: e in w'.led ==> LedOk(w', e)
    ensures forall r :: r in w'.reports ==> ReportOk(w', r)
    ensures forall d :: d in w.done ==> DoneOk(w', d)
    ensures forall d :: d in w.kept ==> KeptOk(w', d)
  {
    hide LM.Inv, LayoutsOk, QuietFrom;
    forall id
      ensures SeenOf(w', id) < |w'.layouts| && RoleOk(w', id)
    {
      RoleOf(w, id);
      assert SeenOf(w', id) == SeenOf(w, id);
    }
    LedOf(w);
    forall e | e in w'.led
      ensures LedOk(w', e)
    {
      assert LedOk(w, e);
      var (id, u) := w.led[e];
      assert w'.layouts[u] == w.layouts[u] && SeenOf(w', id) == SeenOf(w, id);
    }
    forall r | r in w'.reports ensures ReportOk(w', r) { ReportOf(w, r); }
    forall d | d in w.done ensures DoneOk(w', d) { DoneOf(w, d); }
    forall d | d in w.kept ensures KeptOk(w', d) { assert KeptOk(w, d); }
  }

  lemma CompletedOk(w: World, next: Assign, change: Change)
    requires w.layouts != [] && w.layouts[Newest(w)].handoff.Some? && Enabled(w, Publish(next, change)) && change.Complete?
    requires Inv(w)
    ensures var cur := w.layouts[Newest(w)];
      DoneOk(Next(w, Publish(next, change)),
             Done(cur.epoch, cur.leader, next.leader, cur.handoff.value.version, |w.layouts|, change.leader, change.target))
  {
    hide LM.Inv, RoleOk, LedOk, DoneOk, KeptOk;
    var n := Newest(w);
    ReportOf(w, change.leader);
    ReportOf(w, change.target);
    assert HandoffSince(w.layouts, n);
    CompletedDetails(w, next, change);
  }

  lemma CompletedDetails(w: World, next: Assign, change: Change)
    requires LayoutsOk(w.layouts) && Legal(w, next, change) && change.Complete?
    requires w.layouts[Newest(w)].epoch > 0
    requires HandoffSince(w.layouts, Newest(w)) && SeenOf(w, change.leader.id) < |w.layouts|
    requires ReportOk(w, change.leader) && ReportOk(w, change.target)
    ensures var cur := w.layouts[Newest(w)];
      DoneOk(Next(w, Publish(next, change)),
             Done(cur.epoch, cur.leader, next.leader, cur.handoff.value.version, |w.layouts|, change.leader, change.target))
  {
    hide LayoutsOk, QuietFrom;
  }

  lemma PublishKeepsInv(w: World, next: Assign, change: Change)
    requires Inv(w) && Enabled(w, Publish(next, change))
    ensures Inv(Next(w, Publish(next, change)))
  {
    hide LM.Inv, LayoutsOk, RoleOk, LedOk, ReportOk, DoneOk, KeptOk;
    PublishLayouts(w, next, change);
    PublishedOk(w, Next(w, Publish(next, change)));
    if change.Complete? {
      CompletedOk(w, next, change);
    }
  }

  lemma StepKeepsInv(w: World, step: Step)
    requires Inv(w) && Enabled(w, step)
    ensures Inv(Next(w, step))
  {
    hide Inv, IsInternal, Legal, Next;
    match step
    case Internal(s) => InternalKeepsInv(w, s);
    case Observe(id, v, retain) => ObserveKeepsInv(w, id, v, retain);
    case Poll(id, v) => PollKeepsInv(w, id, v);
    case Publish(next, change) => PublishKeepsInv(w, next, change);
  }

  // ----- whole runs -----

  ghost predicate Run(w: World, steps: seq<Step>, w': World)
    decreases |steps|
  {
    if steps == [] then w == w'
    else Enabled(w, steps[0]) && Run(Next(w, steps[0]), steps[1..], w')
  }

  lemma {:induction false} RunKeepsInv(w: World, steps: seq<Step>, w': World)
    requires Inv(w) && Run(w, steps, w')
    ensures Inv(w')
    decreases |steps|
  {
    hide Inv, Enabled, Next;
    if steps == [] {
    } else {
      StepKeepsInv(w, steps[0]);
      RunKeepsInv(Next(w, steps[0]), steps[1..], w');
    }
  }

  lemma InitialInv(w: World)
    requires Initial(w)
    ensures Inv(w)
  {}

  /** A leader that has applied its handoff is sealed, and a target that has caught up with it may take over. */
  lemma CaughtUpMayComplete(w: World, u: nat, v: nat)
    requires Inv(w) && w.layouts[Newest(w)].handoff.Some?
    requires var cur := w.layouts[Newest(w)]; var l, t := cur.leader, cur.handoff.value.to;
      && cur.handoff.value.version <= u <= SeenOf(w, l) && l in w.c.reps && t in w.c.reps
      && w.c.reps[t].dataEpoch == cur.epoch && |LM.HistoryOf(w.c, t)| >= |LM.HistoryOf(w.c, l)|
    ensures var cur := w.layouts[Newest(w)];
      MayComplete(cur, Status(w, cur.leader, u), Status(w, cur.handoff.value.to, v))
  {
    hide ReportOk, DoneOk, KeptOk, LedOk, LM.Matches, LM.FlightOk, Replay;
    var cur := w.layouts[Newest(w)];
    var l, t := cur.leader, cur.handoff.value.to;
    assert HandoffSince(w.layouts, Newest(w));
    assert RoleOk(w, l);
    assert w.layouts[SeenOf(w, l)].handoff == cur.handoff;
    LM.GoodOf(w.c, l);
    LM.GoodOf(w.c, t);
    LM.FaithfulContent(w.c.reps[l], LM.HistoryOf(w.c, l));
    LM.FaithfulContent(w.c.reps[t], LM.HistoryOf(w.c, t));
  }

  /** A client write (anything but a checkpoint) at position i of an epoch's history. */
  predicate ClientWrite(w: World, e: int, i: nat) {
    e in w.c.epochs && i < |w.c.epochs[e]| && !w.c.epochs[e][i].Checkpoint?
  }

  /**
   * A graceful handoff loses no acknowledged client write. After any run, for every completed
   * handoff: no client write of the old epoch lies beyond the sealed position, no replica can add
   * one any more; as long as the target has not lost the data it reported, its history has every
   * client write of the old epoch at the same position, and if it began to lead with that data, so
   * has the history of the epoch it leads, from then on.
   */
  lemma HandoffLosesNothing(w: World, steps: seq<Step>, w': World, d: Done, i: nat)
    requires Initial(w) && Run(w, steps, w') && d in w'.done
    ensures Guarded(w'.c, d.epoch)
    ensures ClientWrite(w', d.epoch, i) ==> i < d.leader.number <= d.target.number
    ensures ClientWrite(w', d.epoch, i) && d in w'.kept ==>
      ClientWrite(w', w'.kept[d], i) && w'.c.epochs[w'.kept[d]][i] == w'.c.epochs[d.epoch][i]
    ensures ClientWrite(w', d.epoch, i) && d.target.life == LifeOf(w', d.to) ==>
      var h := LM.HistoryOf(w'.c, d.to);
      d.to in w'.c.reps && i < |h| && h[i] == w'.c.epochs[d.epoch][i]
  {
    hide Inv, Run;
    InitialInv(w);
    RunKeepsInv(w, steps, w');
    DoneGuards(w', d);
    DoneOf(w', d);
    ReportOf(w', d.target);
    if ClientWrite(w', d.epoch, i) {
      assert d.target.history[i] == w'.c.epochs[d.epoch][i];
      if d in w'.kept {
        assert d.target.history[i] == w'.c.epochs[w'.kept[d]][i];
      }
      if d.target.life == LifeOf(w', d.to) {
        assert d.target.history[i] == LM.HistoryOf(w'.c, d.to)[i];
      }
    }
  }
}
