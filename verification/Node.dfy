/** What a node does with its replica of one partition when it applies a layout. */
module Nodes {
  import opened Ops
  import opened Replica
  import opened Layouts
  import opened Partitions
  import opened Placement
  import LM = LogMatching
  import H = Handoffs
  import R = Rounds

  /** The replica a node has after applying the layout; None if it had none before. */
  function Applied(before: Option<Rep>, p: Part, node: string, retain: nat): Rep {
    if p.leader == node then
      (if before.None? then Fresh(retain).LeadFresh(p.epoch)
       else if before.value.role != Leader || before.value.epoch != p.epoch then before.value.Promote(p.epoch)
       else before.value).(sealed := p.state == HandingOff)
    else
      (if before.None? then Fresh(retain) else before.value).Follow(p.epoch)
  }

  /** The partitions a node is to hold: none before the layout knows its incarnation, then those that name it. */
  method Desired(layout: Option<Layout>, node: string, incarnation: int) returns (desired: map<Ref, Part>)
    requires layout.Some? ==> WellFormed(layout.value)
    ensures forall ref :: ref in desired <==>
      layout.Some? && Acknowledged(layout.value.members, node, incarnation) && Find(layout, ref).Some? && Find(layout, ref).value.Has(node)
    ensures forall ref :: ref in desired ==> Some(desired[ref]) == Find(layout, ref)
  {
    hide PartOk;
    desired := map[];
    if layout.None? || !Acknowledged(layout.value.members, node, incarnation) {
      return;
    }
    var l := layout.value;
    desired := Named(l.parts, l.generation, node);
    if l.resharding.Some? {
      var next := Named(l.resharding.value.parts, l.resharding.value.generation, node);
      desired := desired + next;
    }
  }

  /** The partitions of one generation that name the node. */
  method Named(parts: seq<Part>, generation: int, node: string) returns (named: map<Ref, Part>)
    requires forall i :: 0 <= i < |parts| ==> parts[i].id == i
    ensures forall ref :: ref in named <==> ref.generation == generation && 0 <= ref.id < |parts| && parts[ref.id].Has(node)
    ensures forall ref :: ref in named ==> named[ref] == parts[ref.id]
  {
    named := map[];
    for i := 0 to |parts|
      invariant forall ref :: ref in named <==> ref.generation == generation && 0 <= ref.id < i && parts[ref.id].Has(node)
      invariant forall ref :: ref in named ==> named[ref] == parts[ref.id]
    {
      if parts[i].Has(node) {
        named := named[Ref(generation, parts[i].id) := parts[i]];
      }
    }
  }

  /** A partition that already existed is promoted, demoted or left alone; a new one leads or follows empty. */
  method Reconcile(part: Partition, existed: bool, p: Part, node: string)
    requires part.Valid() && (!existed ==> part.rep == Fresh(part.rep.retain))
    modifies part, part.store, part.wal
    ensures part.Valid()
    ensures part.rep == Applied(if existed then Some(old(part.rep)) else None, p, node, old(part.rep.retain))
  {
    hide Partition.Valid;
    FieldsShown(part);
    if p.leader == node {
      if !existed {
        part.LeadFresh(p.epoch);
      } else if part.role != Leader || part.epoch != p.epoch {
        part.Promote(p.epoch);
      }
      part.Seal(p.state == HandingOff);
    } else {
      var _ := part.Follow(p.epoch);
    }
  }

  lemma FieldsShown(part: Partition)
    requires part.Valid()
    ensures part.role == part.rep.role && part.epoch == part.rep.epoch
  {}

  /**
   * The code's reconcile is the step of the handoff protocol: with the same assignment the same
   * replica results, provided the epoch to lead was never led by anyone else.
   */
  lemma ReconcileIsStep(c: LM.Cluster, members: map<string, int>, node: string, incarnation: int, p: Part, retain: nat)
    requires Acknowledged(members, node, incarnation) && node in p.Holders()
    requires var id := LM.Node(node, incarnation);
      p.leader == node && !(LM.Leads(c, id) && c.reps[id].epoch == p.epoch) ==> p.epoch > 0 && p.epoch !in c.epochs
    ensures var id := LM.Node(node, incarnation);
      var c' := H.Reconcile(c, id, R.AssignOf(members, p), retain);
      id in c'.reps && c'.reps[id] == Applied(if id in c.reps then Some(c.reps[id]) else None, p, node, retain)
  {
    var id, a := LM.Node(node, incarnation), R.AssignOf(members, p);
    assert R.IdOf(members, node) == id && id in a.holders;
    assert a.leader == id <==> p.leader == node;
    var created := H.Do(c, LM.Create(id, retain));
    assert id !in c.reps ==> created.reps[id] == Fresh(retain);
    assert id in c.reps ==> created == c;
  }

  /** Assignments count once the layout knows the node in its present incarnation. */
  predicate Acknowledged(members: map<string, int>, node: string, incarnation: int) {
    node != "" && node in members && members[node] == incarnation
  }

  /**
   * A node keeps no replica of a partition that the layout does not give it, and none at all while
   * the layout does not know its incarnation.
   */
  lemma DropIsStep(c: LM.Cluster, members: map<string, int>, node: string, incarnation: int, p: Part, retain: nat)
    requires !Acknowledged(members, node, incarnation) || node !in p.Holders()
    ensures LM.Node(node, incarnation) !in H.Reconcile(c, LM.Node(node, incarnation), R.AssignOf(members, p), retain).reps
  {
    var id, a := LM.Node(node, incarnation), R.AssignOf(members, p);
    assert id !in a.holders by {
      forall n | n in p.Holders()
        ensures R.IdOf(members, n) != id
      {
      }
    }
  }
}
