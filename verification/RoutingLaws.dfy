/** When each command of the routing table is taken, and where it puts a shard. */
module RoutingLaws {
  import opened Common
  import opened ByteOrder
  import opened Routing

  /** Every shard but `id` is where it was. */
  ghost predicate Elsewhere(a: map<nat, Placement>, b: map<nat, Placement>, id: nat) {
    forall o :: o != id ==> (o in a <==> o in b) && (o in a ==> b[o] == a[o])
  }

  // ---- the first table, nodes and leaders -----------------------------------------

  /** A first table is taken exactly once, with the ranges it is given and nobody serving them. */
  lemma InitIff(t: Table, ranges: map<nat, (Bytes, Bytes)>)
    ensures var (t', code) := Apply(t, InitRoutes(ranges));
            && (code == OK <==> t.shards == map[]) && (code != OK ==> code == 3 && t' == t)
            && (code == OK ==>
                  && t'.shards.Keys == ranges.Keys
                  && forall id :: id in ranges ==>
                       var p := t'.shards[id];
                       (p.start, p.end) == ranges[id] && p.nodes == [] && p.addresses == map[] && p.leader == None)
  {
  }

  /** Nodes may be set for any shard there is: it is then on exactly those, at those addresses, and keeps
      its leader if and only if that is one of them. */
  lemma SetNodesIff(t: Table, id: nat, nodes: seq<int>, addresses: Addresses)
    ensures var (t', code) := Apply(t, SetShardNodes(id, nodes, addresses));
            && (code == OK <==> id in t.shards) && (code != OK ==> code == 4 && t' == t)
            && (code == OK ==>
                  var p, q := t.shards[id], t'.shards[id];
                  && Elsewhere(t.shards, t'.shards, id) && t'.version == t.version + 1
                  && q.start == p.start && q.end == p.end && q.nodes == nodes && q.addresses == addresses
                  && (p.leader.Some? && p.leader.value in nodes ==>
                        q.leader == p.leader && q.leaderTerm == p.leaderTerm)
                  && (p.leader.Some? && p.leader.value !in nodes ==> q.leader == None && q.leaderTerm == 0)
                  && (p.leader.None? ==> q.leader == None))
  {
  }

  /** A report is taken if and only if it comes from a node that serves the shard, where any does, and is
      of a later term than the leader it replaces. */
  lemma ReportIff(t: Table, id: nat, node: int, term: int)
    ensures var (t', code) := Apply(t, ReportLeader(id, node, term));
            && (code == OK <==>
                  && id in t.shards && (t.shards[id].nodes == [] || node in t.shards[id].nodes)
                  && (t.shards[id].leader.Some? ==> term > t.shards[id].leaderTerm))
            && (code != OK ==> t' == t)
            && (code == 4 <==> id !in t.shards)
            && (code == 5 <==> id in t.shards && t.shards[id].nodes != [] && node !in t.shards[id].nodes)
            && (code == OK ==>
                  && Elsewhere(t.shards, t'.shards, id) && t'.version == t.version + 1
                  && t'.shards[id] == t.shards[id].(leader := Some(node), leaderTerm := term))
  {
  }

  /** The command puts shard `id` on other nodes, and may so end its leader's term. */
  predicate Replaces(x: Command, id: nat) { (x.SetShardNodes? || x.MoveShard?) && x.id == id }

  /** While a shard stays on its nodes, the term of the leader it names never goes back, through any
      commands, and a report of an older term than the one named is refused. */
  lemma {:induction false} LeaderTermsRise(t: Table, log: seq<Command>, id: nat)
    requires id in t.shards && t.shards[id].leader.Some?
    requires forall i :: 0 <= i < |log| ==> !Replaces(log[i], id)
    ensures var t' := ApplyAll(t, log);
            && id in t'.shards && t'.shards[id].leader.Some? && t'.shards[id].leaderTerm >= t.shards[id].leaderTerm
            && t'.shards[id].nodes == t.shards[id].nodes
            && forall node, term :: term <= t.shards[id].leaderTerm ==> Apply(t', ReportLeader(id, node, term)).1 != OK
  {
    if log != [] {
      LeaderTermsRise(t, log[..|log| - 1], id);
    }
  }

  // ---- splitting ------------------------------------------------------------------

  /** A split that goes through puts the new shard from the split point to the old end, on exactly the
      nodes and addresses asked for, with no leader yet; of the old one it changes the end and of the
      others nothing; and proposed again at once it succeeds. */
  lemma SplitPlaces(t: Table, c: Command)
    requires c.Split? && c.newId !in t.shards && Apply(t, c).1 == OK
    ensures var t' := Apply(t, c).0;
            && c.id in t.shards && c.newId in t'.shards && t'.shards.Keys == t.shards.Keys + {c.newId}
            && t'.shards[c.newId] == Placement(c.splitKey, t.shards[c.id].end, c.nodes, c.addresses, None, 0)
            && t'.shards[c.id] == t.shards[c.id].(end := c.splitKey)
            && (forall o :: o in t.shards && o != c.id ==> t'.shards[o] == t.shards[o])
            && t'.version == t.version + 1 && Apply(t', c) == (t', OK)
  {
  }

  /** Two ranges that have keys and overlap have a key in common. */
  lemma OverlapShares(p: Placement, q: Placement) returns (key: Bytes)
    requires Less(p.start, p.end) && Less(q.start, q.end) && Overlap(p, q)
    ensures Holds(p, key) && Holds(q, key)
  {
    LessIrreflexive(p.start);
    LessIrreflexive(q.start);
    key := if Less(p.start, q.start) then q.start else p.start;
    LessTotal(p.start, q.start);
    if Less(p.start, q.start) { LessAsymmetric(p.start, q.start); }
  }

  ghost predicate NonEmpty(shards: map<nat, Placement>) {
    forall id :: id in shards ==> Less(shards[id].start, shards[id].end)
  }

  lemma NoClash(shards: map<nat, Placement>, id: nat, left: Placement, right: Placement)
    requires id in shards && Disjoint(shards) && NonEmpty(shards)
    requires Less(left.start, left.end) && Less(right.start, right.end)
    requires forall key :: Holds(left, key) || Holds(right, key) ==> Holds(shards[id], key)
    ensures !Clashes(shards, id, left, right)
  {
    hide Less, InRange, Holds, Overlap;
    forall o | o in shards && o != id ensures !Overlap(shards[o], left) && !Overlap(shards[o], right) {
      if Overlap(shards[o], left) {
        var key := OverlapShares(shards[o], left);
        assert false;
      }
      if Overlap(shards[o], right) {
        var key := OverlapShares(shards[o], right);
        assert false;
      }
    }
  }

  /** In a table whose shards are disjoint and not empty, a split into a new id goes through if and only
      if the shard is there and the point is strictly inside its range. */
  lemma SplitIff(t: Table, c: Command)
    requires c.Split? && c.newId !in t.shards && Disjoint(t.shards) && NonEmpty(t.shards)
    ensures var (t', code) := Apply(t, c);
            var inside := c.id in t.shards && Less(t.shards[c.id].start, c.splitKey)
                          && Less(c.splitKey, t.shards[c.id].end);
            && (code == OK <==> inside) && (code != OK ==> t' == t && code == if c.id in t.shards then 8 else 7)
  {
    hide Less;
    if c.id in t.shards && Less(t.shards[c.id].start, c.splitKey) && Less(c.splitKey, t.shards[c.id].end) {
      var p := t.shards[c.id];
      var left, right := LeftHalf(p, c.splitKey), RightHalf(p, c.splitKey, c.nodes, c.addresses);
      forall key ensures Holds(left, key) || Holds(right, key) ==> Holds(p, key) {
        HalvesPartition(p, c.splitKey, c.nodes, c.addresses, key);
      }
      NoClash(t.shards, c.id, left, right);
    }
  }

  /** No command leaves a shard without a range, so that is every table there can be. */
  lemma {:induction false} StaysNonEmpty(t: Table, log: seq<Command>)
    requires NonEmpty(t.shards) && t.shards != map[]
    ensures NonEmpty(ApplyAll(t, log).shards) && ApplyAll(t, log).shards != map[]
  {
    hide Less;
    if log != [] {
      StaysNonEmpty(t, log[..|log| - 1]);
      StepNonEmpty(ApplyAll(t, log[..|log| - 1]), log[|log| - 1]);
    }
  }

  lemma StepNonEmpty(t: Table, c: Command)
    requires NonEmpty(t.shards) && t.shards != map[]
    ensures NonEmpty(Apply(t, c).0.shards) && Apply(t, c).0.shards != map[]
  {
    hide Less;
    if Apply(t, c).0 != t { assert c.id in Apply(t, c).0.shards; }
  }

  /** A split into an id that is taken changes nothing; it succeeds exactly when it is the one that took it. */
  lemma SplitTakenIff(t: Table, c: Command)
    requires c.Split? && c.newId in t.shards
    ensures var (t', code) := Apply(t, c);
            var same := c.id in t.shards && t.shards[c.id].end == c.splitKey == t.shards[c.newId].start;
            && t' == t && (code == OK <==> same && t.shards[c.newId].nodes == c.nodes)
            && (code == 9 <==> !same) && (code == 10 <==> same && t.shards[c.newId].nodes != c.nodes)
  {
  }

  // ---- moving ---------------------------------------------------------------------

  /** A move changes the table if and only if the nodes it names can serve, the shard is on the nodes it is
      to leave, and those have none of them; the shard is then on the new nodes at their addresses, with its
      range, and without a leader.  It succeeds then, and when it has happened already. */
  lemma MoveIff(t: Table, id: nat, fromNodes: seq<int>, nodes: seq<int>, addresses: Addresses)
    ensures var (t', code) := Apply(t, MoveShard(id, fromNodes, nodes, addresses));
            var can := id in t.shards && CanServe(nodes, addresses);
            var there := can && t.shards[id].nodes == nodes;
            var moves := can && t.shards[id].nodes == fromNodes && Apart(nodes, fromNodes);
            && (t' != t <==> moves)
            && (code == OK <==> moves || (there && t.shards[id].addresses == addresses))
            && (moves ==>
                  && Elsewhere(t.shards, t'.shards, id) && id in t'.shards && t'.version == t.version + 1
                  && t'.shards[id] == Placement(t.shards[id].start, t.shards[id].end, nodes, addresses, None, 0))
            && (code == 12 <==> id !in t.shards) && (code == 13 <==> id in t.shards && !CanServe(nodes, addresses))
            && (code == 16 <==> there && t.shards[id].addresses != addresses)
            && (code == 14 <==> can && !there && t.shards[id].nodes != fromNodes)
            && (code == 15 <==> can && !there && t.shards[id].nodes == fromNodes && !Apart(nodes, fromNodes))
  {
    if id in t.shards && CanServe(nodes, addresses) {
      assert nodes[0] in nodes;
      SharesIff(nodes, fromNodes);
      hide CanServe, Apart;
      if nodes == fromNodes { assert !Apart(nodes, fromNodes) by { NotApart(nodes); } }
    }
  }

  lemma SharesIff(a: seq<int>, b: seq<int>)
    ensures (exists n :: n in a && n in b) <==> !Apart(a, b)
  {
  }

  lemma NotApart(a: seq<int>)
    requires a != []
    ensures !Apart(a, a)
  {
    var n := a[0];
    assert n in a;
    SharesIff(a, a);
  }
}
