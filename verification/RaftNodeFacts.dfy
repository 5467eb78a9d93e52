/** What one call of a node does to its log, its commit index and its storage. */
module RaftNodeFacts {
  import opened Common
  import opened RaftProtocol
  import opened RaftNode

  // ---- the majority index ---------------------------------------------------------

  function AtLeast(s: seq<nat>, c: nat): nat {
    if s == [] then 0 else (if s[0] >= c then 1 else 0) + AtLeast(s[1..], c)
  }

  ghost predicate Ascending(s: seq<nat>) {
    forall i, j :: 0 <= i <= j < |s| ==> s[i] <= s[j]
  }

  lemma InsertCounts(x: nat, s: seq<nat>, c: nat)
    ensures AtLeast(Insert(x, s), c) == AtLeast(s, c) + (if x >= c then 1 else 0)
  {
    if s == [] || x <= s[0] {
      assert ([x] + s)[1..] == s;
    } else {
      InsertCounts(x, s[1..], c);
      var r := [s[0]] + Insert(x, s[1..]);
      assert r[1..] == Insert(x, s[1..]);
    }
  }

  lemma InsertAscends(x: nat, s: seq<nat>)
    requires Ascending(s)
    ensures Ascending(Insert(x, s))
    ensures forall y :: y in Insert(x, s) <==> y == x || y in s
  {
    if s != [] && x > s[0] {
      InsertAscends(x, s[1..]);
      var rest := Insert(x, s[1..]);
      assert forall y :: y in s <==> y == s[0] || y in s[1..];
      forall i | 0 <= i < |rest| ensures s[0] <= rest[i] {
        assert rest[i] in rest;
      }
    }
  }

  lemma SortCounts(s: seq<nat>, c: nat)
    ensures Ascending(Sorted(s)) && AtLeast(Sorted(s), c) == AtLeast(s, c)
  {
    if s != [] {
      SortCounts(s[1..], c);
      InsertCounts(s[0], Sorted(s[1..]), c);
      InsertAscends(s[0], Sorted(s[1..]));
    }
  }

  /** In ascending order, everything from position `k` on is at least `c` exactly when the
      element there is. */
  lemma CountFrom(s: seq<nat>, k: nat, c: nat)
    requires Ascending(s) && k < |s|
    ensures s[k] >= c <==> AtLeast(s, c) >= |s| - k
    ensures AtLeast(s, c) <= |s|
  {
    if k == 0 {
      CountAll(s, c);
    } else {
      CountFrom(s[1..], k - 1, c);
      CountAll(s, c);
    }
  }

  lemma CountAll(s: seq<nat>, c: nat)
    requires Ascending(s)
    ensures AtLeast(s, c) <= |s|
    ensures s != [] && s[0] >= c ==> AtLeast(s, c) == |s|
    ensures s != [] && s[0] < c ==> AtLeast(s, c) < |s|
  {
    if s != [] { CountAll(s[1..], c); }
  }

  ghost predicate Bounded(s: seq<nat>, b: nat) {
    forall i :: 0 <= i < |s| ==> s[i] <= b
  }

  lemma {:induction false} SortedBound(s: seq<nat>, b: nat)
    requires Bounded(s, b)
    ensures Bounded(Sorted(s), b)
  {
    if s != [] {
      SortedBound(s[1..], b);
      InsertBound(s[0], Sorted(s[1..]), b);
    }
  }

  lemma {:induction false} InsertBound(x: nat, s: seq<nat>, b: nat)
    requires x <= b && Bounded(s, b)
    ensures Bounded(Insert(x, s), b)
  {
    if s != [] && x > s[0] {
      InsertBound(x, s[1..], b);
    }
  }

  function Members(s: seq<NodeId>): set<NodeId> {
    set q | q in s
  }

  ghost predicate Distinct(s: seq<NodeId>) {
    forall i, j :: 0 <= i < j < |s| ==> s[i] != s[j]
  }


  function HoldersIn(n: Node, peers: seq<NodeId>, c: nat): set<NodeId> {
    set p | p in peers && MatchOf(n, p) >= c
  }

  lemma {:induction false} CountHolders(n: Node, peers: seq<NodeId>, ms: seq<nat>, c: nat)
    requires Distinct(peers) && |ms| == |peers|
    requires forall i :: 0 <= i < |peers| ==> ms[i] == MatchOf(n, peers[i])
    ensures AtLeast(ms, c) == |HoldersIn(n, peers, c)|
    decreases |peers|
  {
    if peers == [] {
      assert HoldersIn(n, peers, c) == {};
    } else {
      CountHolders(n, peers[1..], ms[1..], c);
      assert peers == [peers[0]] + peers[1..];
      assert peers[0] !in peers[1..];
      assert HoldersIn(n, peers, c) ==
        if ms[0] >= c then HoldersIn(n, peers[1..], c) + {peers[0]} else HoldersIn(n, peers[1..], c);
    }
  }

  /** The commit rule picks an index exactly when enough peers have matched it: the peers that
      hold `c`, with the leader itself, are a majority iff the picked index is at least `c`. */
  lemma MajorityIndexCounts(n: Node, c: nat)
    requires Distinct(n.cfg.peers) && c <= LastIndex(n)
    ensures MajorityIndex(n) >= c <==> |HoldersIn(n, n.cfg.peers, c)| + 1 >= Majority(GroupSize(n))
  {
    var s := MatchList(n);
    SortedLength(s);
    SortCounts(s, c);
    CountHolders(n, n.cfg.peers, s, c);
    var k := |s| + 1 - Majority(GroupSize(n));
    if k < |s| {
      CountFrom(Sorted(s), k, c);
    }
  }

  // ---- logs in memory and in storage ----------------------------------------------

  /** The entries carry the positions they sit at. */
  ghost predicate Indexed(log: Log, base: nat) {
    forall i :: 0 <= i < |log| ==> log[i].index == base + i + 1
  }

  /** Storage holds exactly the node's log, plus possibly leftovers the snapshot covers. */
  ghost predicate Mirrors(entries: map<nat, Entry>, log: Log, base: nat) {
    && (forall i :: i in entries ==> 1 <= i && entries[i].index == i)
    && (forall i :: i in entries && i > base ==> i <= base + |log|)
    && (forall i :: base < i <= base + |log| ==> i in entries && entries[i] == log[i - base - 1])
  }

  lemma PerformOne(d: Disk, w: Write)
    ensures PerformAll(d, [w]) == Perform(d, w)
  {
    assert [w][1..] == [];
  }

  lemma PerformTwo(d: Disk, v: Write, w: Write)
    ensures PerformAll(d, [v, w]) == Perform(Perform(d, v), w)
  {
    assert [v, w][1..] == [w];
    PerformOne(Perform(d, v), w);
  }

  lemma PerformAppend(d: Disk, a: seq<Write>, b: seq<Write>)
    ensures PerformAll(d, a + b) == PerformAll(PerformAll(d, a), b)
    decreases |a|
  {
    if a == [] {
      assert a + b == b;
    } else {
      assert (a + b)[0] == a[0] && (a + b)[1..] == a[1..] + b;
      PerformAppend(Perform(d, a[0]), a[1..], b);
    }
  }

  lemma AboveAppend(a: Log, b: Log, i: nat)
    ensures Above(a + b, i) == Above(a, i) + Above(b, i)
  {
    if a == [] {
      assert a + b == b;
    } else {
      assert (a + b)[0] == a[0] && (a + b)[1..] == a[1..] + b;
      AboveAppend(a[1..], b, i);
    }
  }

  lemma AboveIndexed(log: Log, base: nat, i: nat)
    requires Indexed(log, base) && base <= i
    ensures Above(log, i) == if i - base <= |log| then log[i - base..] else []
  {
    if log != [] {
      if i == base {
        AboveIndexed(log[1..], base + 1, i + 1);
        AboveAll(log, base);
      } else {
        AboveIndexed(log[1..], base + 1, i);
      }
    }
  }

  lemma AboveAll(log: Log, i: nat)
    requires forall k :: 0 <= k < |log| ==> log[k].index > i
    ensures Above(log, i) == log
  {
    if log != [] {
      AboveAll(log[1..], i);
    }
  }

  /** Reading the stored entries back, above the snapshot, gives the node's log. */
  lemma {:induction false} LoadMirrors(entries: map<nat, Entry>, log: Log, base: nat)
    requires Mirrors(entries, log, base)
    ensures Above(LoadLog(entries), base) == log
    decreases |entries.Keys|
  {
    if entries.Keys == {} {
      assert log != [] ==> base + 1 in entries;
    } else {
      var k: nat := MaxKey(entries.Keys);
      var rest := entries - {k};
      assert rest.Keys == entries.Keys - {k};
      AboveAppend(LoadLog(rest), [entries[k]], base);
      if log == [] {
        assert k <= base;
        assert Mirrors(rest, log, base);
        LoadMirrors(rest, log, base);
      } else {
        assert base + |log| in entries;
        assert k == base + |log|;
        var shorter := log[..|log| - 1];
        assert Mirrors(rest, shorter, base);
        LoadMirrors(rest, shorter, base);
        assert log == log[..|log| - 1] + [entries[k]];
      }
    }
  }

  lemma LoadIndices(entries: map<nat, Entry>)
    requires forall i :: i in entries ==> 1 <= i && entries[i].index == i
    ensures Above(LoadLog(entries), 0) == LoadLog(entries)
    decreases |entries.Keys|
  {
    if entries.Keys != {} {
      var k: nat := MaxKey(entries.Keys);
      LoadIndices(entries - {k});
      AboveAppend(LoadLog(entries - {k}), [entries[k]], 0);
    }
  }

  // ---- applying -------------------------------------------------------------------

  lemma {:induction false} HandedAppend(a: Log, b: Log)
    ensures Handed(a + b) == Handed(a) + Handed(b)
    decreases |b|
  {
    if b == [] {
      assert a + b == a;
    } else {
      var b' := b[..|b| - 1];
      assert (a + b)[..|a + b| - 1] == a + b';
      HandedAppend(a, b');
    }
  }

  lemma {:induction false} ReplayedHands(n: Node, applied: nat, machine: Machine)
    requires n.base <= applied <= n.commit <= n.base + |n.log|
    ensures Replayed(n, applied, machine) == machine + Handed(n.log[applied - n.base..n.commit - n.base])
    decreases n.commit - applied
  {
    hide Handed;
    if applied < n.commit {
      var e := n.log[applied - n.base];
      assert EntryAt(n, applied + 1) == Some(e);
      ReplayedHands(n, applied + 1, machine + HandedOne(e));
      HandedFrom(n.log, applied - n.base, n.commit - n.base);
      Associates(machine, HandedOne(e), Handed(n.log[applied + 1 - n.base..n.commit - n.base]));
    } else {
      assert n.log[applied - n.base..n.commit - n.base] == [];
      NothingHanded();
    }
  }

  lemma NothingHanded()
    ensures Handed([]) == []
  {
  }

  lemma Associates(a: Machine, b: Machine, c: Machine)
    ensures (a + b) + c == a + (b + c)
  {
  }

  /** The apply loop hands the machine the commands between the two indices, in order. */
  lemma ApplyLoopHands(n: Node)
    requires n.base <= n.applied <= n.commit <= n.base + |n.log|
    ensures ApplyLoop(n) == n.(applied := n.commit,
                               machine := n.machine + Handed(n.log[n.applied - n.base..n.commit - n.base]))
  {
    ReplayedHands(n, n.applied, n.machine);
  }

  lemma HandedFrom(log: Log, from: nat, upTo: nat)
    requires from < upTo <= |log|
    ensures Handed(log[from..upTo]) == HandedOne(log[from]) + Handed(log[from + 1..upTo])
  {
    var e := log[from];
    assert log[from..upTo] == [e] + log[from + 1..upTo];
    HandedAppend([e], log[from + 1..upTo]);
    assert [e][..0] == [];
    assert Handed([e]) == HandedOne(e);
  }

  // ---- following ------------------------------------------------------------------

  lemma PutMirrors(d: Disk, log: Log, base: nat, e: Entry)
    requires Mirrors(d.entries, log, base) && Indexed(log, base)
    requires e.index == base + |log| + 1
    ensures Mirrors(Perform(d, PutEntry(e)).entries, log + [e], base) && Indexed(log + [e], base)
  {
  }

  lemma TruncateMirrors(d: Disk, log: Log, base: nat, keep: nat)
    requires Mirrors(d.entries, log, base) && Indexed(log, base) && keep <= |log|
    ensures Mirrors(Perform(d, Truncate(base + keep + 1)).entries, log[..keep], base) && Indexed(log[..keep], base)
  {
  }

  /** Storage follows the log through one entry of a request. */
  lemma MergeOneMirrors(n: Node, d: Disk, e: Entry)
    requires Mirrors(d.entries, n.log, n.base) && Indexed(n.log, n.base)
    requires 1 <= e.index <= n.base + |n.log| + 1
    ensures var (n', ws) := MergeOne(n, e);
            var d' := PerformAll(d, ws);
            && Mirrors(d'.entries, n'.log, n'.base) && Indexed(n'.log, n'.base)
            && d' == d.(entries := d'.entries)
            && n' == n.(log := n'.log, commit := n'.commit, applied := n'.applied)
  {
    var (n', ws) := MergeOne(n, e);
    var keep := e.index - n.base - 1;
    if |ws| == 2 {
      PerformTwo(d, ws[0], ws[1]);
      TruncateMirrors(d, n.log, n.base, keep);
      PutMirrors(Perform(d, ws[0]), n.log[..keep], n.base, e);
    } else if |ws| == 1 {
      PerformOne(d, ws[0]);
      PutMirrors(d, n.log, n.base, e);
    }
  }

  lemma {:induction false} MergeMirrors(n: Node, d: Disk, entries: Log)
    requires Mirrors(d.entries, n.log, n.base) && Indexed(n.log, n.base)
    requires entries != [] ==> 1 <= entries[0].index <= n.base + |n.log| + 1
    requires forall i :: 0 <= i < |entries| ==> entries[i].index == entries[0].index + i
    ensures var (n', ws) := Merge(n, entries);
            var d' := PerformAll(d, ws);
            && Mirrors(d'.entries, n'.log, n'.base) && Indexed(n'.log, n'.base)
            && d' == d.(entries := d'.entries)
            && n' == n.(log := n'.log, commit := n'.commit, applied := n'.applied)
    decreases |entries|
  {
    if entries != [] {
      var (n1, ws1) := MergeOne(n, entries[0]);
      MergeOneMirrors(n, d, entries[0]);
      var d1 := PerformAll(d, ws1);
      assert n1.base + |n1.log| >= entries[0].index;
      MergeMirrors(n1, d1, entries[1..]);
      PerformAppend(d, ws1, Merge(n1, entries[1..]).1);
    }
  }

  /** One entry of the sender's against the log. */
  lemma MergeOneTakes(n: Node, sent: Log, from: nat)
    requires Indexed(n.log, n.base) && Indexed(sent, n.base) && from < |sent| && from <= |n.log|
    requires Agree(n.log, sent, from)
    requires from < |n.log| && n.log[from].term == sent[from].term ==> n.log[from] == sent[from]
    ensures var n1 := MergeOne(n, sent[from]).0;
            && Indexed(n1.log, n1.base) && n1.base == n.base
            && (n1.log == n.log || n1.log == n.log[..from] + [sent[from]])
            && from < |n1.log| && Agree(n1.log, sent, from + 1)
            && (forall j: nat :: Agree(n.log, sent, j) ==> j <= |n1.log| && Agree(n1.log, sent, j))
            && (n.applied <= n.commit && n.base <= n.commit && Agree(n.log, sent, n.commit - n.base) ==>
                  n1 == n.(log := n1.log))
  {
  }

  /** What a request leaves of the log: nothing is touched when it already agrees with all of
      the request, and otherwise the log is the sender's up to the request's end. */
  lemma {:induction false} MergeTakes(n: Node, sent: Log, from: nat, upTo: nat)
    requires Indexed(n.log, n.base) && Indexed(sent, n.base)
    requires from <= upTo <= |sent| && from <= |n.log|
    requires Agree(n.log, sent, from)
    requires forall i :: from <= i < |n.log| && i < |sent| && n.log[i].term == sent[i].term ==> n.log[i] == sent[i]
    ensures var (n', ws) := Merge(n, sent[from..upTo]);
            && Agree(n'.log, sent, upTo)
            && (n'.log == n.log || |n'.log| == upTo)
            && (forall j: nat :: Agree(n.log, sent, j) ==> j <= |n'.log|)
            && (n.applied <= n.commit && n.base <= n.commit && Agree(n.log, sent, n.commit - n.base) ==>
                  n' == n.(log := n'.log))
    decreases upTo - from
  {
    hide MergeOne;
    var part := sent[from..upTo];
    if from < upTo {
      assert part[0] == sent[from] && part[1..] == sent[from + 1..upTo];
      MergeOneTakes(n, sent, from);
      MergeTakes(MergeOne(n, sent[from]).0, sent, from + 1, upTo);
    } else {
      assert part == [];
    }
  }
}
