/** The routing table: which shard answers for a key, and every command that changes it. */
module Routing {
  import opened Common
  import opened ByteOrder

  type Addresses = map<int, string>

  datatype Placement = Placement(
    start: Bytes, end: Bytes, nodes: seq<int>, addresses: Addresses, leader: Option<int>, leaderTerm: int)

  /** The shards by id. */
  datatype Table = Table(version: nat, shards: map<nat, Placement>)

  const EMPTY_TABLE := Table(0, map[])

  predicate Holds(p: Placement, key: Bytes) { InRange(p.start, key, p.end) }

  // ---- the one routing rule -------------------------------------------------------

  /** The first of the listed shards whose range holds the key; shard 0 when none does. */
  function Locate(order: seq<nat>, shards: map<nat, Placement>, key: Bytes): nat
    requires forall i :: 0 <= i < |order| ==> order[i] in shards
  {
    if order == [] then 0
    else if Holds(shards[order[0]], key) then order[0]
    else Locate(order[1..], shards, key)
  }

  ghost predicate Disjoint(shards: map<nat, Placement>) {
    forall a, b, key :: a in shards && b in shards && Holds(shards[a], key) && Holds(shards[b], key) ==> a == b
  }

  predicate OwnedBy(shards: map<nat, Placement>, key: Bytes, id: nat) { id in shards && Holds(shards[id], key) }

  ghost predicate Covered(shards: map<nat, Placement>, key: Bytes) { exists id :: OwnedBy(shards, key, id) }

  /** `order` lists the shards, however often and in whatever order. */
  ghost predicate Lists(order: seq<nat>, shards: map<nat, Placement>) {
    (forall i :: 0 <= i < |order| ==> order[i] in shards) && forall id :: id in shards ==> id in order
  }

  /** Whatever the order they are tried in, a key goes to the shard that owns it. */
  lemma {:induction false} LocateOwner(order: seq<nat>, shards: map<nat, Placement>, key: Bytes, id: nat)
    requires Disjoint(shards) && (forall i :: 0 <= i < |order| ==> order[i] in shards)
    requires OwnedBy(shards, key, id) && id in order
    ensures Locate(order, shards, key) == id
  {
    if !Holds(shards[order[0]], key) {
      assert order == [order[0]] + order[1..];
      LocateOwner(order[1..], shards, key, id);
    }
  }

  lemma {:induction false} LocateNobody(order: seq<nat>, shards: map<nat, Placement>, key: Bytes)
    requires forall i :: 0 <= i < |order| ==> order[i] in shards
    requires !Covered(shards, key)
    ensures Locate(order, shards, key) == 0
  {
    if order != [] {
      assert !OwnedBy(shards, key, order[0]);
      LocateNobody(order[1..], shards, key);
    }
  }

  // ---- commands -------------------------------------------------------------------

  datatype Command =
    | InitRoutes(ranges: map<nat, (Bytes, Bytes)>)
    | SetShardNodes(id: nat, nodes: seq<int>, addresses: Addresses)
    | ReportLeader(id: nat, node: int, term: int)
    | Split(id: nat, newId: nat, splitKey: Bytes, nodes: seq<int>, addresses: Addresses)
    | MoveShard(id: nat, fromNodes: seq<int>, nodes: seq<int>, addresses: Addresses)
    | UnknownKind
    | Unreadable

  const OK := 0

  predicate Overlap(p: Placement, q: Placement) { Less(p.start, q.end) && Less(q.start, p.end) }

  function LeftHalf(p: Placement, splitKey: Bytes): Placement { p.(end := splitKey) }

  function RightHalf(p: Placement, splitKey: Bytes, nodes: seq<int>, addresses: Addresses): Placement {
    Placement(splitKey, p.end, nodes, addresses, None, 0)
  }

  ghost predicate Clashes(shards: map<nat, Placement>, id: nat, left: Placement, right: Placement) {
    exists o :: o in shards && o != id && (Overlap(shards[o], left) || Overlap(shards[o], right))
  }

  /** The new id is taken: is this the split that took it? */
  function SplitAgain(t: Table, id: nat, newId: nat, splitKey: Bytes, nodes: seq<int>): nat
    requires newId in t.shards
  {
    if id in t.shards && t.shards[id].end == splitKey && t.shards[newId].start == splitKey
    then if t.shards[newId].nodes == nodes then OK else 10
    else 9
  }

  ghost function ApplySplit(t: Table, id: nat, newId: nat, splitKey: Bytes, nodes: seq<int>,
                            addresses: Addresses): (Table, nat) {
    if newId in t.shards then (t, SplitAgain(t, id, newId, splitKey, nodes))
    else if id !in t.shards then (t, 7)
    else
      var p := t.shards[id];
      if !(Less(p.start, splitKey) && Less(splitKey, p.end)) then (t, 8)
      else
        var left, right := LeftHalf(p, splitKey), RightHalf(p, splitKey, nodes, addresses);
        if Clashes(t.shards, id, left, right) then (t, 11)
        else (Table(t.version + 1, t.shards[id := left][newId := right]), OK)
  }

  predicate Repeats(nodes: seq<int>) { exists i, j :: 0 <= i < j < |nodes| && nodes[i] == nodes[j] }

  predicate CanServe(nodes: seq<int>, addresses: Addresses) {
    nodes != [] && !Repeats(nodes) && forall n :: n in nodes ==> n in addresses
  }

  function ApplyMove(t: Table, id: nat, fromNodes: seq<int>, nodes: seq<int>, addresses: Addresses): (Table, nat) {
    if id !in t.shards then (t, 12)
    else
      var p := t.shards[id];
      if !CanServe(nodes, addresses) then (t, 13)
      else if p.nodes == nodes then (t, if p.addresses == addresses then OK else 16)
      else if p.nodes != fromNodes then (t, 14)
      else if exists n :: n in nodes && n in fromNodes then (t, 15)
      else
        var q := p.(nodes := nodes, addresses := addresses, leader := None, leaderTerm := 0);
        (Table(t.version + 1, t.shards[id := q]), OK)
  }

  ghost function Apply(t: Table, c: Command): (Table, nat) {
    match c
    case InitRoutes(ranges) =>
      if t.shards != map[] then (t, 3)
      else (Table(t.version + 1, map id | id in ranges :: Placement(ranges[id].0, ranges[id].1, [], map[], None, 0)),
            OK)
    case SetShardNodes(id, nodes, addresses) =>
      if id !in t.shards then (t, 4)
      else
        var p := t.shards[id].(nodes := nodes, addresses := addresses);
        var q := if p.leader.Some? && p.leader.value !in nodes then p.(leader := None, leaderTerm := 0) else p;
        (Table(t.version + 1, t.shards[id := q]), OK)
    case ReportLeader(id, node, term) =>
      if id !in t.shards then (t, 4)
      else
        var p := t.shards[id];
        if p.nodes != [] && node !in p.nodes then (t, 5)
        else if p.leader.Some? && term <= p.leaderTerm then (t, 6)
        else (Table(t.version + 1, t.shards[id := p.(leader := Some(node), leaderTerm := term)]), OK)
    case Split(id, newId, splitKey, nodes, addresses) => ApplySplit(t, id, newId, splitKey, nodes, addresses)
    case MoveShard(id, fromNodes, nodes, addresses) => ApplyMove(t, id, fromNodes, nodes, addresses)
    case UnknownKind => (t, 1)
    case Unreadable => (t, 2)
  }

  ghost function ApplyAll(t: Table, log: seq<Command>): Table {
    if log == [] then t else Apply(ApplyAll(t, log[..|log| - 1]), log[|log| - 1]).0
  }

  // ---- what every table keeps -----------------------------------------------------

  /** A named leader is one of the nodes that serve the shard, where there are any. */
  ghost predicate LeadersServe(shards: map<nat, Placement>) {
    forall id :: id in shards && shards[id].leader.Some? && shards[id].nodes != [] ==>
      shards[id].leader.value in shards[id].nodes
  }

  ghost predicate TableInv(t: Table) { Disjoint(t.shards) && LeadersServe(t.shards) }

  ghost predicate SameCover(a: map<nat, Placement>, b: map<nat, Placement>) {
    forall key :: Covered(a, key) <==> Covered(b, key)
  }

  /** A split point inside a range cuts it in two. */
  lemma HalvesPartition(p: Placement, splitKey: Bytes, nodes: seq<int>, addresses: Addresses, key: Bytes)
    requires Less(p.start, splitKey) && Less(splitKey, p.end)
    ensures Holds(p, key) <==> Holds(LeftHalf(p, splitKey), key) || Holds(RightHalf(p, splitKey, nodes, addresses), key)
    ensures !(Holds(LeftHalf(p, splitKey), key) && Holds(RightHalf(p, splitKey, nodes, addresses), key))
  {
    if Less(key, splitKey) { LessTransitive(key, splitKey, p.end); }
    if !Less(key, splitKey) && Less(key, p.start) { LessTransitive(key, p.start, splitKey); }
  }

  /** The shards after a split that went through. */
  function Halved(shards: map<nat, Placement>, id: nat, newId: nat, splitKey: Bytes, nodes: seq<int>,
                  addresses: Addresses): map<nat, Placement>
    requires id in shards
  {
    shards[id := LeftHalf(shards[id], splitKey)][newId := RightHalf(shards[id], splitKey, nodes, addresses)]
  }

  /** Who owns a key after it. */
  lemma HalvedOwner(shards: map<nat, Placement>, id: nat, newId: nat, splitKey: Bytes, nodes: seq<int>,
                    addresses: Addresses, key: Bytes, x: nat)
    requires id in shards && newId !in shards && Less(shards[id].start, splitKey) && Less(splitKey, shards[id].end)
    ensures var after := Halved(shards, id, newId, splitKey, nodes, addresses);
            OwnedBy(after, key, x) <==>
            if x == newId then Holds(shards[id], key) && !Less(key, splitKey)
            else OwnedBy(shards, key, x) && (x == id ==> Less(key, splitKey))
  {
    HalvesPartition(shards[id], splitKey, nodes, addresses, key);
  }

  lemma HalvedKeeps(shards: map<nat, Placement>, id: nat, newId: nat, splitKey: Bytes, nodes: seq<int>,
                    addresses: Addresses)
    requires id in shards && newId !in shards && Less(shards[id].start, splitKey) && Less(splitKey, shards[id].end)
    requires Disjoint(shards)
    ensures var after := Halved(shards, id, newId, splitKey, nodes, addresses);
            Disjoint(after) && SameCover(shards, after)
  {
    hide Less;
    var after := Halved(shards, id, newId, splitKey, nodes, addresses);
    forall a, b, key | a in after && b in after && Holds(after[a], key) && Holds(after[b], key) ensures a == b {
      HalvedOwner(shards, id, newId, splitKey, nodes, addresses, key, a);
      HalvedOwner(shards, id, newId, splitKey, nodes, addresses, key, b);
      assert OwnedBy(after, key, a) && OwnedBy(after, key, b);
    }
    forall key ensures Covered(shards, key) <==> Covered(after, key) {
      if x :| OwnedBy(shards, key, x) {
        HalvedOwner(shards, id, newId, splitKey, nodes, addresses, key, x);
        HalvedOwner(shards, id, newId, splitKey, nodes, addresses, key, newId);
        assert OwnedBy(after, key, x) || OwnedBy(after, key, newId);
      }
      if y :| OwnedBy(after, key, y) {
        HalvedOwner(shards, id, newId, splitKey, nodes, addresses, key, y);
        assert OwnedBy(shards, key, if y == newId then id else y);
      }
    }
  }

  /** Placements that answer for the same ranges. */
  lemma SameRangesKeep(a: map<nat, Placement>, b: map<nat, Placement>)
    requires Disjoint(a) && a.Keys == b.Keys
    requires forall id :: id in a ==> b[id].start == a[id].start && b[id].end == a[id].end
    ensures Disjoint(b) && SameCover(a, b)
  {
    forall key, id ensures OwnedBy(a, key, id) <==> OwnedBy(b, key, id) {
    }
    forall x, y, key | x in b && y in b && Holds(b[x], key) && Holds(b[y], key) ensures x == y {
      assert Holds(a[x], key) && Holds(a[y], key);
    }
    forall key ensures Covered(a, key) <==> Covered(b, key) {
      if id :| OwnedBy(a, key, id) { assert OwnedBy(b, key, id); }
      if id :| OwnedBy(b, key, id) { assert OwnedBy(a, key, id); }
    }
  }

  /** One command: the ranges stay disjoint and cover what they covered, and leaders serve. A
      first table is as disjoint as the ranges it is given. */
  lemma ApplyKeeps(t: Table, c: Command)
    requires TableInv(t) && (c.InitRoutes? && t.shards == map[] ==> Disjoint(Apply(t, c).0.shards))
    ensures TableInv(Apply(t, c).0)
    ensures t.shards != map[] ==> SameCover(t.shards, Apply(t, c).0.shards) && Apply(t, c).0.shards != map[]
  {
    var t' := Apply(t, c).0;
    if t' == t || c.InitRoutes? {
    } else if c.Split? {
      HalvedKeeps(t.shards, c.id, c.newId, c.splitKey, c.nodes, c.addresses);
      assert c.id in t'.shards;
    } else {
      SameRangesKeep(t.shards, t'.shards);
      assert c.id in t'.shards;
    }
  }

  ghost predicate DisjointRanges(ranges: map<nat, (Bytes, Bytes)>) {
    forall a, b, key :: InBoth(ranges, a, b, key) ==> a == b
  }

  predicate InBoth(ranges: map<nat, (Bytes, Bytes)>, a: nat, b: nat, key: Bytes) {
    a in ranges && b in ranges && InRange(ranges[a].0, key, ranges[a].1) && InRange(ranges[b].0, key, ranges[b].1)
  }

  /** Every reachable table: disjoint ranges, covering exactly the keys the initial ones covered. */
  lemma {:induction false} TablesPartition(ranges: map<nat, (Bytes, Bytes)>, log: seq<Command>)
    requires ranges != map[] && DisjointRanges(ranges)
    ensures var t := ApplyAll(Apply(EMPTY_TABLE, InitRoutes(ranges)).0, log);
            TableInv(t) && t.shards != map[]
            && forall key :: Covered(t.shards, key) <==> InSome(ranges, key)
  {
    var first := Apply(EMPTY_TABLE, InitRoutes(ranges)).0;
    if log == [] {
      assert first.shards.Keys == ranges.Keys;
      forall key ensures Covered(first.shards, key) <==> InSome(ranges, key) {
        if id :| id in ranges && InRange(ranges[id].0, key, ranges[id].1) { assert OwnedBy(first.shards, key, id); }
      }
      assert first.shards.Keys != {};
      forall a, b, key
        | a in first.shards && b in first.shards && Holds(first.shards[a], key) && Holds(first.shards[b], key)
        ensures a == b
      {
        assert InBoth(ranges, a, b, key);
      }
    } else {
      hide Apply;
      TablesPartition(ranges, log[..|log| - 1]);
      ApplyKeeps(ApplyAll(first, log[..|log| - 1]), log[|log| - 1]);
    }
  }

  /** Nothing checks the ranges a table starts from: every table after it keeps its ranges disjoint
      exactly when those are. */
  lemma PartitionIff(ranges: map<nat, (Bytes, Bytes)>)
    requires ranges != map[]
    ensures (forall log :: DisjointAfter(ranges, log)) <==> DisjointRanges(ranges)
  {
    if DisjointRanges(ranges) {
      forall log ensures DisjointAfter(ranges, log) {
        TablesPartition(ranges, log);
      }
    } else {
      StartDisjoint(ranges);
      assert !DisjointAfter(ranges, []);
    }
  }

  ghost predicate DisjointAfter(ranges: map<nat, (Bytes, Bytes)>, log: seq<Command>) {
    Disjoint(ApplyAll(Apply(EMPTY_TABLE, InitRoutes(ranges)).0, log).shards)
  }

  lemma StartDisjoint(ranges: map<nat, (Bytes, Bytes)>)
    ensures Disjoint(Apply(EMPTY_TABLE, InitRoutes(ranges)).0.shards) ==> DisjointRanges(ranges)
  {
    var shards := Apply(EMPTY_TABLE, InitRoutes(ranges)).0.shards;
    forall a, b, key | InBoth(ranges, a, b, key) ensures Disjoint(shards) ==> a == b {
      assert Holds(shards[a], key) && Holds(shards[b], key);
    }
  }

  /** A split moves the keys from the split point to the old end to the new shard, and no other. */
  lemma SplitMoves(t: Table, c: Command, order: seq<nat>, order': seq<nat>, key: Bytes)
    requires TableInv(t) && c.Split? && c.newId !in t.shards && Apply(t, c).1 == OK
    requires Lists(order, t.shards) && Lists(order', Apply(t, c).0.shards)
    ensures var p := t.shards[c.id];
            Locate(order', Apply(t, c).0.shards, key) ==
            if !Less(key, c.splitKey) && Less(key, p.end) then c.newId else Locate(order, t.shards, key)
  {
    var p, after := t.shards[c.id], Apply(t, c).0.shards;
    HalvedKeeps(t.shards, c.id, c.newId, c.splitKey, c.nodes, c.addresses);
    assert !Less(key, c.splitKey) && Less(key, p.end) ==> Holds(p, key) by {
      if !Less(key, c.splitKey) && Less(key, p.start) { LessTransitive(key, p.start, c.splitKey); }
    }
    hide Less, Apply;
    if x :| OwnedBy(t.shards, key, x) {
      HalvedOwner(t.shards, c.id, c.newId, c.splitKey, c.nodes, c.addresses, key, x);
      HalvedOwner(t.shards, c.id, c.newId, c.splitKey, c.nodes, c.addresses, key, c.newId);
      LocateOwner(order, t.shards, key, x);
      LocateOwner(order', after, key, if Holds(p, key) && !Less(key, c.splitKey) then c.newId else x);
    } else {
      assert !OwnedBy(t.shards, key, c.id);
      LocateNobody(order, t.shards, key);
      LocateNobody(order', after, key);
    }
  }

  /** A command that moves no boundary moves no key. */
  lemma OthersMoveNothing(t: Table, c: Command, order: seq<nat>, order': seq<nat>, key: Bytes)
    requires TableInv(t) && !c.Split? && !c.InitRoutes?
    requires Lists(order, t.shards) && Lists(order', Apply(t, c).0.shards)
    ensures Locate(order', Apply(t, c).0.shards, key) == Locate(order, t.shards, key)
  {
    var after := Apply(t, c).0.shards;
    assert after.Keys == t.shards.Keys;
    SameRangesKeep(t.shards, after);
    hide Less, Apply;
    if x :| OwnedBy(t.shards, key, x) {
      LocateOwner(order, t.shards, key, x);
      LocateOwner(order', after, key, x);
    } else {
      LocateNobody(order, t.shards, key);
      LocateNobody(order', after, key);
    }
  }

  // ---- a command whose answer was lost --------------------------------------------

  lemma StaysOnce(t: Table, x: Command, id: nat)
    requires id in t.shards
    ensures id in Apply(t, x).0.shards && Apply(t, x).0.shards[id].start == t.shards[id].start
  {
  }

  /** A shard never leaves the table, and never begins anywhere else. */
  lemma {:induction false} Stays(t: Table, log: seq<Command>, id: nat)
    requires id in t.shards
    ensures id in ApplyAll(t, log).shards && ApplyAll(t, log).shards[id].start == t.shards[id].start
  {
    hide Apply;
    if log != [] {
      Stays(t, log[..|log| - 1], id);
      StaysOnce(ApplyAll(t, log[..|log| - 1]), log[|log| - 1], id);
    }
  }

  /** A split proposed again, after whatever else, never happens twice; and it succeeds exactly while
      the shard that was split has not been split below, and the new one has the nodes asked for. */
  lemma SplitRepeats(t: Table, c: Command, log: seq<Command>)
    requires c.Split? && Apply(t, c).1 == OK
    ensures var t' := ApplyAll(Apply(t, c).0, log);
            && Apply(t', c).0 == t' && c.id in t'.shards && c.newId in t'.shards
            && (Apply(t', c).1 == OK <==> t'.shards[c.id].end == c.splitKey && t'.shards[c.newId].nodes == c.nodes)
  {
    hide ApplyAll;
    var t1 := Apply(t, c).0;
    assert c.id in t1.shards && c.newId in t1.shards && t1.shards[c.newId].start == c.splitKey;
    Stays(t1, log, c.id);
    Stays(t1, log, c.newId);
  }

  /** The command puts shard `id` on `nodes`. */
  predicate Places(x: Command, id: nat, nodes: seq<int>) {
    (x.SetShardNodes? || x.MoveShard?) && x.id == id && x.nodes == nodes
  }

  predicate Apart(a: seq<int>, b: seq<int>) { forall n :: n in a ==> n !in b }

  lemma ApartAt(a: seq<int>, b: seq<int>, n: int)
    requires Apart(a, b) && n in a
    ensures n !in b
  {
  }

  lemma {:induction false} NotPlaced(t: Table, log: seq<Command>, id: nat, nodes: seq<int>)
    requires id in t.shards && t.shards[id].nodes != nodes && forall i :: 0 <= i < |log| ==> !Places(log[i], id, nodes)
    ensures id in ApplyAll(t, log).shards && ApplyAll(t, log).shards[id].nodes != nodes
  {
    if log != [] { NotPlaced(t, log[..|log| - 1], id, nodes); }
  }

  /** A move proposed again, after whatever else, moves the shard a second time if and only if it is by
      then back on the nodes it was to leave; and succeeds, without moving it, exactly where it put it. */
  lemma MoveRepeatsIff(t: Table, c: Command, log: seq<Command>)
    requires c.MoveShard? && Apply(t, c).1 == OK
    ensures var t' := ApplyAll(Apply(t, c).0, log);
            && c.id in t'.shards
            && (Apply(t', c).0 != t' <==> t'.shards[c.id].nodes == c.fromNodes && Apart(c.nodes, c.fromNodes))
            && (Apply(t', c) == (t', OK) <==>
                  t'.shards[c.id].nodes == c.nodes && t'.shards[c.id].addresses == c.addresses)
  {
    hide ApplyAll;
    var t1 := Apply(t, c).0;
    Stays(t1, log, c.id);
    var t' := ApplyAll(t1, log);
    assert c.nodes[0] in c.nodes;
    if t'.shards[c.id].nodes == c.fromNodes && Apart(c.nodes, c.fromNodes) {
      ApartAt(c.nodes, c.fromNodes, c.nodes[0]);
      assert Apply(t', c).0.version == t'.version + 1;
    }
  }

  /** So not twice, if nothing in between put the shard back there. */
  lemma MoveOnce(t: Table, c: Command, log: seq<Command>)
    requires c.MoveShard? && Apply(t, c).1 == OK
    requires forall i :: 0 <= i < |log| ==> !Places(log[i], c.id, c.fromNodes)
    ensures var t' := ApplyAll(Apply(t, c).0, log); Apply(t', c).0 == t'
  {
    assert c.nodes[0] in c.nodes;
    if Apart(c.nodes, c.fromNodes) {
      ApartAt(c.nodes, c.fromNodes, c.nodes[0]);
      NotPlaced(Apply(t, c).0, log, c.id, c.fromNodes);
    }
    MoveRepeatsIff(t, c, log);
  }

  /** And twice, if something did. */
  lemma MovedTwice(there: Addresses, back: Addresses)
    requires 2 in there && 1 in back
    ensures var c := MoveShard(0, [1], [2], there);
            var t := Table(0, map[0 := Placement([], [255], [1], back, None, 0)]);
            var t' := ApplyAll(Apply(t, c).0, [MoveShard(0, [2], [1], back)]);
            Apply(t, c).1 == OK && Apply(t', c).1 == OK && t'.shards[0].nodes == [1]
            && Apply(t', c).0.shards[0].nodes == [2]
  {
    var c, r := MoveShard(0, [1], [2], there), MoveShard(0, [2], [1], back);
    var t := Table(0, map[0 := Placement([], [255], [1], back, None, 0)]);
    var t1 := Apply(t, c).0;
    assert [r][..0] == [];
    assert ApplyAll(t1, [r]) == Apply(ApplyAll(t1, []), r).0;
  }

  /** A refused command changes nothing, and an accepted one that changes anything moves the
      version on by one. */
  lemma VersionCounts(t: Table, c: Command)
    ensures Apply(t, c).1 != OK ==> Apply(t, c).0 == t
    ensures Apply(t, c).0 == t || Apply(t, c).0.version == t.version + 1
  {
  }

  /** Before a shard has nodes anyone may report leading it: the table names a leader that serves
      nothing until the nodes are set. */
  lemma LeaderBeforeNodes(node: int, term: int)
    ensures var ranges: map<nat, (Bytes, Bytes)> := map[0 := ([], [255])];
            var t := ApplyAll(EMPTY_TABLE, [InitRoutes(ranges), ReportLeader(0, node, term)]);
            0 in t.shards && t.shards[0].leader == Some(node) && t.shards[0].nodes == []
  {
    var ranges: map<nat, (Bytes, Bytes)> := map[0 := ([], [255])];
    var log := [InitRoutes(ranges), ReportLeader(0, node, term)];
    assert log[..1] == [log[0]] && [log[0]][..0] == [];
    var t1 := Apply(EMPTY_TABLE, log[0]).0;
    assert ApplyAll(EMPTY_TABLE, [log[0]]) == t1;
    assert t1.shards == map[0 := Placement([], [255], [], map[], None, 0)];
    assert ApplyAll(EMPTY_TABLE, log) == Apply(t1, log[1]).0;
  }

  // ---- equal ranges by first byte -------------------------------------------------

  function Chunk(n: int): int { if n <= 1 then 0 else 256 / n }

  function DefaultRange(n: int, i: nat): (Bytes, Bytes)
    requires n >= 2 && i < n
  {
    ChunkFits(n, i);
    ([(i * Chunk(n)) as byte], if i < n - 1 then [((i + 1) * Chunk(n)) as byte] else [255])
  }

  lemma ChunkFits(n: int, i: nat)
    requires n >= 2 && i < n
    ensures 0 <= i * Chunk(n) < 256 && (i < n - 1 ==> 0 <= (i + 1) * Chunk(n) < 256)
  {
    var c := 256 / n;
    assert n * c <= 256;
    assert i * c <= (n - 1) * c by { MulOrder(i, n - 1, c); }
    if c > 0 {
      assert (n - 1) * c == n * c - c;
    }
    if i < n - 1 { MulOrder(i + 1, n - 1, c); }
  }

  lemma MulOrder(a: int, b: int, c: int)
    requires a <= b && c >= 0
    ensures a * c <= b * c
  {
  }

  ghost function DefaultRanges(n: int): map<nat, (Bytes, Bytes)> {
    if n <= 1 then map[0 := ([], [255])]
    else map i: nat | i < n :: DefaultRange(n, i)
  }

  lemma ByteRange(lo: byte, hi: byte, key: Bytes)
    ensures InRange([lo], key, [hi]) <==> key != [] && lo <= key[0] < hi
  {
    var a: Bytes, b: Bytes := [lo], [hi];
    assert a[1..] == [] && b[1..] == [];
    if key != [] {
      assert !Less(key[1..], []);
    }
  }

  lemma DefaultHolds(n: int, i: nat, key: Bytes)
    requires n >= 2 && i < n
    ensures InRange(DefaultRange(n, i).0, key, DefaultRange(n, i).1) <==>
            && key != [] && i * Chunk(n) <= key[0] as int
            && key[0] as int < (if i < n - 1 then (i + 1) * Chunk(n) else 255)
  {
    ChunkFits(n, i);
    var lo := (i * Chunk(n)) as byte;
    var hi := if i < n - 1 then ((i + 1) * Chunk(n)) as byte else 255;
    ByteRange(lo, hi, key);
  }

  /** Every range but the last is as wide as the others, and the last is wider by less than the number of
      ranges: a shard's first bytes are `width` of them, from `i * width` on. */
  lemma EvenWidths(n: int, i: nat) returns (width: nat)
    requires n >= 2 && i < n
    ensures n * width <= 256 < n * (width + 1)
    ensures forall key :: InRange(DefaultRange(n, i).0, key, DefaultRange(n, i).1) <==>
              key != [] && i * width <= key[0] as int < if i < n - 1 then (i + 1) * width else 255
  {
    hide InRange, DefaultRange;
    width := 256 / n;
    forall key ensures InRange(DefaultRange(n, i).0, key, DefaultRange(n, i).1) <==>
              key != [] && i * width <= key[0] as int < if i < n - 1 then (i + 1) * width else 255
    {
      DefaultHolds(n, i, key);
    }
  }

  lemma DefaultsDisjoint(n: int)
    requires n >= 2
    ensures DisjointRanges(DefaultRanges(n))
  {
    hide DefaultRange, InRange;
    var r := DefaultRanges(n);
    forall a, b, key | a in r && b in r && InRange(r[a].0, key, r[a].1) && InRange(r[b].0, key, r[b].1) ensures a == b {
      DefaultHolds(n, a, key);
      DefaultHolds(n, b, key);
      if a < b {
        MulOrder(a + 1, b, Chunk(n));
      } else if b < a {
        MulOrder(b + 1, a, Chunk(n));
      }
    }
  }

  ghost predicate InSome(ranges: map<nat, (Bytes, Bytes)>, key: Bytes) {
    exists i :: i in ranges && InRange(ranges[i].0, key, ranges[i].1)
  }

  lemma RangeOfByte(n: int, b: int) returns (i: nat)
    requires n >= 2 && 0 <= b < 255
    ensures i < n && i * Chunk(n) <= b && b < (if i < n - 1 then (i + 1) * Chunk(n) else 255)
  {
    var c := Chunk(n);
    i := n - 1;
    if c > 0 && b / c < n - 1 {
      i := b / c;
      DivBounds(b, c);
    } else if c > 0 {
      DivBounds(b, c);
      MulOrder(n - 1, b / c, c);
    }
  }

  lemma DivBounds(b: int, c: int)
    requires b >= 0 && c > 0
    ensures b / c >= 0 && (b / c) * c <= b < (b / c + 1) * c
  {
  }

  lemma DefaultsCover(n: int, key: Bytes)
    requires n >= 2
    ensures InSome(DefaultRanges(n), key) <==> key != [] && key[0] < 255
  {
    hide DefaultRange, InRange;
    var r, c := DefaultRanges(n), Chunk(n);
    if key != [] && key[0] < 255 {
      var i := RangeOfByte(n, key[0] as int);
      DefaultHolds(n, i, key);
      assert i in r;
    }
    forall i | i in r && InRange(r[i].0, key, r[i].1) ensures key != [] && key[0] < 255 {
      DefaultHolds(n, i, key);
      if i < n - 1 {
        ChunkFits(n, i);
        LastBelow(n, i);
      }
    }
  }

  /** No range but the last reaches past the last one's start. */
  lemma LastBelow(n: int, i: nat)
    requires n >= 2 && i < n - 1
    ensures (i + 1) * Chunk(n) <= 255
  {
    ChunkFits(n, i);
  }

  /** The default ranges are disjoint, and together hold exactly the keys below 0xff: the empty
      key among them only when there is one shard. */
  lemma DefaultsPartition(n: int, key: Bytes)
    ensures DisjointRanges(DefaultRanges(n))
    ensures InSome(DefaultRanges(n), key) <==> if key == [] then n <= 1 else key[0] < 255
  {
    if n <= 1 {
      var hi: Bytes := [255];
      assert hi[1..] == [];
      assert 0 in DefaultRanges(n);
      assert !Less(key, []);
      if key != [] { assert !Less(key[1..], []); }
    } else {
      DefaultsDisjoint(n);
      DefaultsCover(n, key);
    }
  }
}
