/** The metadata group's state machine as it runs, and the default ranges it is started with. */
module MetadataService {
  import opened Common
  import opened ByteOrder
  import opened Routing

  /** What a snapshot holds: the version, and the shards in the order of their ids. */
  datatype Payload = Payload(version: nat, entries: seq<(nat, Placement)>)

  ghost predicate Sorted(entries: seq<(nat, Placement)>) {
    forall i, j :: 0 <= i < j < |entries| ==> entries[i].0 < entries[j].0
  }

  ghost predicate Has(entries: seq<(nat, Placement)>, id: nat) {
    exists i :: 0 <= i < |entries| && entries[i].0 == id
  }

  ghost predicate EntriesOf(entries: seq<(nat, Placement)>, shards: map<nat, Placement>, ids: set<nat>) {
    && (forall i :: 0 <= i < |entries| ==>
          entries[i].0 in ids && entries[i].0 in shards && entries[i].1 == shards[entries[i].0])
    && (forall id :: id in ids ==> Has(entries, id))
  }

  function Parsed(entries: seq<(nat, Placement)>): map<nat, Placement> {
    if entries == [] then map[]
    else Parsed(entries[..|entries| - 1])[entries[|entries| - 1].0 := entries[|entries| - 1].1]
  }

  lemma {:induction false} ParsedAt(entries: seq<(nat, Placement)>, i: nat)
    requires Sorted(entries) && i < |entries|
    ensures entries[i].0 in Parsed(entries) && Parsed(entries)[entries[i].0] == entries[i].1
  {
    var n := |entries| - 1;
    if i < n {
      ParsedAt(entries[..n], i);
    }
  }

  lemma {:induction false} ParsedHas(entries: seq<(nat, Placement)>, id: nat)
    requires id in Parsed(entries)
    ensures Has(entries, id)
  {
    var n := |entries| - 1;
    if id != entries[n].0 {
      ParsedHas(entries[..n], id);
      var i :| 0 <= i < n && entries[..n][i].0 == id;
      assert entries[i].0 == id;
    }
  }

  /** Parsing what was written down gives the shards back. */
  lemma ParsedBack(entries: seq<(nat, Placement)>, shards: map<nat, Placement>)
    requires Sorted(entries) && EntriesOf(entries, shards, shards.Keys)
    ensures Parsed(entries) == shards
  {
    hide Parsed;
    forall id | id in shards ensures id in Parsed(entries) && Parsed(entries)[id] == shards[id] {
      assert Has(entries, id);
      var i :| 0 <= i < |entries| && entries[i].0 == id;
      ParsedAt(entries, i);
    }
    forall id | id in Parsed(entries) ensures id in shards {
      ParsedHas(entries, id);
    }
  }

  /** The least of a set of ids. */
  method LeastOf(ids: set<nat>) returns (least: nat)
    requires ids != {}
    ensures least in ids && forall id :: id in ids ==> least <= id
  {
    least :| least in ids;
    var rest := ids - {least};
    while rest != {}
      invariant rest <= ids && least in ids
      invariant forall id :: id in ids && id !in rest ==> least <= id
      decreases |rest|
    {
      var id :| id in rest;
      if id < least {
        least := id;
      }
      rest := rest - {id};
    }
  }

  class MetadataStateMachine {
    var shards: map<nat, Placement>
    var version: nat

    constructor ()
      ensures View() == EMPTY_TABLE
    {
      shards, version := map[], 0;
    }

    function View(): Table
      reads this
    {
      Table(version, shards)
    }

    /** One command: refused whole with its own code, or applied whole. */
    method Apply(c: Command) returns (code: nat)
      modifies this
      ensures (View(), code) == Routing.Apply(old(View()), c)
    {
      match c
      case InitRoutes(ranges) =>
        if shards != map[] {
          return 3;
        }
        shards := map id | id in ranges :: Placement(ranges[id].0, ranges[id].1, [], map[], None, 0);
        version := version + 1;
        code := OK;
      case SetShardNodes(id, nodes, addresses) => code := ApplySetShardNodes(id, nodes, addresses);
      case ReportLeader(id, node, term) => code := ApplyReportLeader(id, node, term);
      case Split(id, newId, splitKey, nodes, addresses) => code := ApplySplit(id, newId, splitKey, nodes, addresses);
      case MoveShard(id, fromNodes, nodes, addresses) => code := ApplyMoveShard(id, fromNodes, nodes, addresses);
      case UnknownKind => code := 1;
      case Unreadable => code := 2;
    }

    method ApplySetShardNodes(id: nat, nodes: seq<int>, addresses: Addresses) returns (code: nat)
      modifies this
      ensures (View(), code) == Routing.Apply(old(View()), SetShardNodes(id, nodes, addresses))
    {
      if id !in shards {
        return 4;
      }
      var p := shards[id].(nodes := nodes, addresses := addresses);
      if p.leader.Some? && p.leader.value !in nodes {
        p := p.(leader := None, leaderTerm := 0);
      }
      shards := shards[id := p];
      version := version + 1;
      code := OK;
    }

    method ApplyReportLeader(id: nat, node: int, term: int) returns (code: nat)
      modifies this
      ensures (View(), code) == Routing.Apply(old(View()), ReportLeader(id, node, term))
    {
      if id !in shards {
        return 4;
      }
      var p := shards[id];
      if p.nodes != [] && node !in p.nodes {
        return 5;
      }
      if p.leader.Some? && term <= p.leaderTerm {
        return 6;
      }
      shards := shards[id := p.(leader := Some(node), leaderTerm := term)];
      version := version + 1;
      code := OK;
    }

    method ApplySplit(id: nat, newId: nat, splitKey: Bytes, nodes: seq<int>, addresses: Addresses) returns (code: nat)
      modifies this
      ensures (View(), code) == Routing.ApplySplit(old(View()), id, newId, splitKey, nodes, addresses)
    {
      hide Less;
      if newId in shards {
        return SplitAgain(View(), id, newId, splitKey, nodes);
      }
      if id !in shards {
        return 7;
      }
      var p := shards[id];
      if !(Less(p.start, splitKey) && Less(splitKey, p.end)) {
        return 8;
      }
      var left, right := LeftHalf(p, splitKey), RightHalf(p, splitKey, nodes, addresses);
      var rest := shards.Keys - {id};
      while rest != {}
        invariant rest <= shards.Keys - {id}
        invariant forall o :: o in shards && o != id && o !in rest ==>
                    !Overlap(shards[o], left) && !Overlap(shards[o], right)
        decreases |rest|
      {
        var o :| o in rest;
        if Overlap(shards[o], left) || Overlap(shards[o], right) {
          return 11;
        }
        rest := rest - {o};
      }
      shards := shards[id := left][newId := right];
      version := version + 1;
      code := OK;
    }

    method ApplyMoveShard(id: nat, fromNodes: seq<int>, nodes: seq<int>, addresses: Addresses) returns (code: nat)
      modifies this
      ensures (View(), code) == Routing.ApplyMove(old(View()), id, fromNodes, nodes, addresses)
    {
      if id !in shards {
        return 12;
      }
      var p := shards[id];
      if !CanServe(nodes, addresses) {
        return 13;
      }
      if p.nodes == nodes {
        return if p.addresses == addresses then OK else 16;
      }
      if p.nodes != fromNodes {
        return 14;
      }
      if exists n :: n in nodes && n in fromNodes {
        return 15;
      }
      shards := shards[id := p.(nodes := nodes, addresses := addresses, leader := None, leaderTerm := 0)];
      version := version + 1;
      code := OK;
    }

    /** The table, shard by shard in the order of their ids. */
    method Snapshot() returns (data: Payload)
      ensures data.version == version && Sorted(data.entries) && Parsed(data.entries) == shards
    {
      hide EntriesOf, Parsed;
      var entries := [];
      var rest := shards.Keys;
      NoEntries(shards);
      while rest != {}
        invariant rest <= shards.Keys && Sorted(entries) && EntriesOf(entries, shards, shards.Keys - rest)
        invariant forall i, id :: 0 <= i < |entries| && id in rest ==> entries[i].0 < id
        decreases |rest|
      {
        var id := LeastOf(rest);
        ghost var before, done := entries, shards.Keys - rest;
        entries := entries + [(id, shards[id])];
        OneMore(before, entries, shards, done, id);
        rest := rest - {id};
        assert shards.Keys - rest == done + {id};
      }
      assert shards.Keys - rest == shards.Keys;
      ParsedBack(entries, shards);
      data := Payload(version, entries);
    }

    /** Whatever the table was, it is now the one the snapshot was taken of. */
    method Restore(data: Payload)
      modifies this
      ensures View() == Table(data.version, Parsed(data.entries))
    {
      var parsed: map<nat, Placement> := map[];
      var i := 0;
      while i < |data.entries|
        invariant 0 <= i <= |data.entries| && parsed == Parsed(data.entries[..i])
      {
        parsed := parsed[data.entries[i].0 := data.entries[i].1];
        assert data.entries[..i + 1][..i] == data.entries[..i];
        i := i + 1;
      }
      assert data.entries[..i] == data.entries;
      shards, version := parsed, data.version;
    }
  }

  lemma NoEntries(shards: map<nat, Placement>)
    ensures EntriesOf([], shards, shards.Keys - shards.Keys)
  {
  }

  lemma OneMore(before: seq<(nat, Placement)>, entries: seq<(nat, Placement)>, shards: map<nat, Placement>,
                ids: set<nat>, id: nat)
    requires EntriesOf(before, shards, ids) && id in shards && entries == before + [(id, shards[id])]
    ensures EntriesOf(entries, shards, ids + {id})
  {
    forall x | x in ids + {id} ensures Has(entries, x) {
      if x == id {
        assert entries[|before|].0 == id;
      } else {
        assert Has(before, x);
        var i :| 0 <= i < |before| && before[i].0 == x;
        assert entries[i].0 == x;
      }
    }
  }

  /** Equal ranges by first byte, filled in one after another. */
  method DefaultRangeMap(n: int) returns (ranges: map<nat, (Bytes, Bytes)>)
    ensures ranges == DefaultRanges(n)
  {
    if n <= 1 {
      return map[0 := ([], [255])];
    }
    ranges := map[];
    var i := 0;
    while i < n
      invariant 0 <= i <= n
      invariant ranges == map j: nat | j < i :: DefaultRange(n, j)
    {
      ranges := ranges[i := DefaultRange(n, i)];
      i := i + 1;
    }
  }
}
