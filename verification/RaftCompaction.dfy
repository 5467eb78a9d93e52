/**
  A node whose log is a suffix: what its storage holds between any two writes, and what folding
  the applied prefix into a snapshot, or taking one from the leader, does to it.
*/
module RaftCompaction {
  import opened Common
  import opened RaftProtocol
  import opened RaftNode
  import opened RaftNodeFacts

  /** What the rest of the group did: the sequence it committed, and each term's leader's log. */
  datatype Story = Story(committed: Log, led: map<nat, Log>)

  /** Leaders' logs match one another, and every entry in one is its own term's leader's. */
  ghost predicate Coherent(st: Story) {
    && Indexed(st.committed, 0)
    && (forall t :: t in st.led ==> Indexed(st.led[t], 0))
    && (forall t, i :: t in st.led && 0 <= i < |st.led[t]| ==> Owned(st, st.led[t], i))
  }

  ghost predicate Owned(st: Story, log: Log, i: nat) {
    i < |log| && log[i].term in st.led && Agree(log, st.led[log[i].term], i + 1)
  }

  // ---- suffixes -------------------------------------------------------------------

  /** The entry at position `i` of a log that starts at `base` is `other`'s. */
  predicate Same(log: Log, base: nat, other: Log, i: nat) {
    base <= i < base + |log| && i < |other| && log[i - base] == other[i]
  }

  ghost predicate Follows(log: Log, base: nat, other: Log, n: nat) {
    n <= base + |log| && forall i :: base <= i < n ==> Same(log, base, other, i)
  }

  /** What is retained up to `c` is what was committed. */
  ghost predicate Settled(st: Story, log: Log, base: nat, c: nat) {
    c <= |st.committed| && Follows(log, base, st.committed, c)
  }

  /** Each retained entry comes with what its own term's leader has before it. */
  ghost predicate Traced(st: Story, log: Log, base: nat) {
    forall i :: base <= i < base + |log| ==> TracedAt(st, log, base, i)
  }

  ghost predicate TracedAt(st: Story, log: Log, base: nat, i: nat) {
    base <= i < base + |log| && log[i - base].term in st.led && Follows(log, base, st.led[log[i - base].term], i + 1)
  }

  lemma FollowsCut(log: Log, base: nat, other: Log, n: nat, keep: nat, m: nat)
    requires Follows(log, base, other, n) && keep <= |log| && m <= n && m <= base + keep
    ensures Follows(log[..keep], base, other, m)
  {
    forall i | base <= i < m ensures Same(log[..keep], base, other, i) {
      assert Same(log, base, other, i);
    }
  }

  lemma FollowsMore(log: Log, base: nat, other: Log, n: nat, e: Entry)
    requires Follows(log, base, other, n)
    ensures Follows(log + [e], base, other, n)
    ensures n == base + |log| && n < |other| && other[n] == e ==> Follows(log + [e], base, other, n + 1)
  {
    forall i | base <= i < n ensures Same(log + [e], base, other, i) {
      assert Same(log, base, other, i);
    }
  }

  lemma FollowsAbove(log: Log, base: nat, other: Log, n: nat, from: nat)
    requires Follows(log, base, other, n) && Indexed(log, base) && base <= from && n <= from + |Above(log, from)|
    ensures Follows(Above(log, from), from, other, n)
  {
    AboveIndexed(log, base, from);
    forall i | from <= i < n ensures Same(Above(log, from), from, other, i) {
      assert Same(log, base, other, i);
    }
  }

  lemma FollowsOther(log: Log, base: nat, a: Log, b: Log, n: nat)
    requires Follows(log, base, a, n) && Agree(a, b, n)
    ensures Follows(log, base, b, n)
  {
    forall i | base <= i < n ensures Same(log, base, b, i) {
      assert Same(log, base, a, i);
    }
  }

  lemma TracedCut(st: Story, log: Log, base: nat, keep: nat)
    requires Traced(st, log, base) && keep <= |log|
    ensures Traced(st, log[..keep], base)
  {
    hide Follows;
    forall i | base <= i < base + keep ensures TracedAt(st, log[..keep], base, i) {
      assert TracedAt(st, log, base, i);
      FollowsCut(log, base, st.led[log[i - base].term], i + 1, keep, i + 1);
    }
  }

  lemma TracedMore(st: Story, log: Log, base: nat, e: Entry)
    requires Traced(st, log, base) && TracedAt(st, log + [e], base, base + |log|)
    ensures Traced(st, log + [e], base)
  {
    hide Follows;
    forall i | base <= i < base + |log + [e]| ensures TracedAt(st, log + [e], base, i) {
      if i < base + |log| {
        assert TracedAt(st, log, base, i);
        FollowsMore(log, base, st.led[log[i - base].term], i + 1, e);
      }
    }
  }

  lemma TracedAbove(st: Story, log: Log, base: nat, from: nat)
    requires Traced(st, log, base) && Indexed(log, base) && base <= from
    ensures Traced(st, Above(log, from), from) && Indexed(Above(log, from), from)
  {
    hide Follows;
    AboveIndexed(log, base, from);
    var rest := Above(log, from);
    forall i | from <= i < from + |rest| ensures TracedAt(st, rest, from, i) {
      assert TracedAt(st, log, base, i);
      FollowsAbove(log, base, st.led[log[i - base].term], i + 1, from);
    }
  }

  // ---- storage between any two writes ---------------------------------------------

  function Base(d: Disk): nat { if d.snapshot.Some? then d.snapshot.value.index else 0 }

  function BaseTerm(d: Disk): nat { if d.snapshot.Some? then d.snapshot.value.term else 0 }

  /** A snapshot is the effect of the committed commands up to its index. */
  ghost predicate SnapshotSound(st: Story, s: Snapshot) {
    && 0 < s.index <= |st.committed| && s.term == st.committed[s.index - 1].term
    && s.data == Handed(st.committed[..s.index])
  }

  /** Storage holds `log` after its snapshot, without a gap, committed as far as it says. */
  ghost predicate Holds(st: Story, d: Disk, log: Log) {
    && (d.snapshot.Some? ==> SnapshotSound(st, d.snapshot.value))
    && Mirrors(d.entries, log, Base(d)) && Indexed(log, Base(d))
    && Traced(st, log, Base(d)) && Settled(st, log, Base(d), d.commit)
  }

  ghost predicate DiskInv(st: Story, d: Disk) { exists log :: Holds(st, d, log) }

  /** Storage is sound before the first write, after the last, and between any two. */
  ghost predicate Safe(st: Story, d: Disk, ws: seq<Write>)
    decreases |ws|
  {
    DiskInv(st, d) && (ws != [] ==> Safe(st, Perform(d, ws[0]), ws[1..]))
  }

  lemma {:induction false} SafePrefix(st: Story, d: Disk, ws: seq<Write>, k: nat)
    requires Safe(st, d, ws) && k <= |ws|
    ensures DiskInv(st, PerformAll(d, ws[..k]))
    decreases k
  {
    if k == 0 {
      assert ws[..k] == [];
    } else {
      assert ws[..k][0] == ws[0] && ws[..k][1..] == ws[1..][..k - 1];
      SafePrefix(st, Perform(d, ws[0]), ws[1..], k - 1);
    }
  }

  lemma {:induction false} SafeAppend(st: Story, d: Disk, a: seq<Write>, b: seq<Write>)
    requires Safe(st, d, a) && Safe(st, PerformAll(d, a), b)
    ensures Safe(st, d, a + b)
    decreases |a|
  {
    if a == [] {
      assert a + b == b;
    } else {
      assert (a + b)[0] == a[0] && (a + b)[1..] == a[1..] + b;
      SafeAppend(st, Perform(d, a[0]), a[1..], b);
    }
  }

  lemma SafeOne(st: Story, d: Disk, w: Write)
    requires DiskInv(st, d) && DiskInv(st, Perform(d, w))
    ensures Safe(st, d, [w])
  {
    hide DiskInv;
    assert [w][1..] == [];
    assert Safe(st, Perform(d, w), []);
  }

  lemma SafeTwo(st: Story, d: Disk, v: Write, w: Write)
    requires DiskInv(st, d) && DiskInv(st, Perform(d, v)) && DiskInv(st, Perform(Perform(d, v), w))
    ensures Safe(st, d, [v, w])
  {
    hide DiskInv;
    SafeOne(st, Perform(d, v), w);
    assert [v, w][1..] == [w];
  }

  // ---- a node over its storage ----------------------------------------------------

  /** What memory holds is what storage holds, and the machine is the replay of the committed
      commands up to the applied index. */
  ghost predicate Ready(st: Story, n: Node, d: Disk) {
    && Holds(st, d, n.log) && n.base == Base(d) && n.baseTerm == BaseTerm(d)
    && n.base <= n.applied <= n.commit && d.commit <= n.commit
    && Settled(st, n.log, n.base, n.commit)
    && n.applied <= |st.committed| && n.machine == Handed(st.committed[..n.applied])
  }

  ghost predicate NodeInv(st: Story, n: Node, d: Disk) { Ready(st, n, d) && n.applied == n.commit }

  /** A call leaves the node right, and storage right wherever it is cut off. */
  ghost predicate Left(st: Story, d: Disk, n': Node, ws: seq<Write>) {
    Safe(st, d, ws) && NodeInv(st, n', PerformAll(d, ws))
  }

  lemma LeftAlone(st: Story, n: Node, d: Disk)
    requires NodeInv(st, n, d)
    ensures Left(st, d, n, [])
  {
    assert DiskInv(st, d);
  }

  lemma LeftAfter(st: Story, d: Disk, a: seq<Write>, n': Node, b: seq<Write>)
    requires Safe(st, d, a) && Left(st, PerformAll(d, a), n', b)
    ensures Left(st, d, n', a + b)
  {
    hide Safe, NodeInv;
    SafeAppend(st, d, a, b);
    PerformAppend(d, a, b);
  }

  // ---- folding the applied prefix -------------------------------------------------

  lemma MirrorsAbove(entries: map<nat, Entry>, log: Log, base: nat, from: nat)
    requires Mirrors(entries, log, base) && Indexed(log, base) && base <= from
    ensures Mirrors(entries, Above(log, from), from)
    ensures Mirrors((map i | i in entries && i > from :: entries[i]), Above(log, from), from)
  {
    hide Above;
    AboveIndexed(log, base, from);
    var rest := Above(log, from);
    forall i | from < i <= from + |rest| ensures i in entries && entries[i] == rest[i - from - 1] {
      assert rest[i - from - 1] == log[i - base - 1];
    }
  }

  lemma SettledAtBase(st: Story, log: Log, base: nat, c: nat)
    requires c <= base <= |st.committed|
    ensures Settled(st, log, base, c)
  {
  }

  /** A snapshot of what is committed may take the place of everything it covers. */
  lemma SnapshotHolds(st: Story, d: Disk, log: Log, s: Snapshot)
    requires Holds(st, d, log) && SnapshotSound(st, s) && Base(d) <= s.index && d.commit <= s.index
    ensures Holds(st, Perform(d, SaveSnapshot(s)), Above(log, s.index))
    ensures Holds(st, Perform(Perform(d, SaveSnapshot(s)), Compact(s.index)), Above(log, s.index))
  {
    hide Traced, Settled, Mirrors, Indexed;
    TracedAbove(st, log, Base(d), s.index);
    MirrorsAbove(d.entries, log, Base(d), s.index);
    SettledAtBase(st, Above(log, s.index), s.index, d.commit);
  }

  lemma SnapshotTaken(st: Story, n: Node)
    requires n.base < n.applied <= |st.committed| && Settled(st, n.log, n.base, n.applied)
    requires n.machine == Handed(st.committed[..n.applied])
    ensures EntryAt(n, n.applied).Some?
    ensures SnapshotSound(st, Snapshot(n.applied, EntryAt(n, n.applied).value.term, n.machine))
  {
    assert Same(n.log, n.base, st.committed, n.applied - 1);
  }

  lemma MaybeSnapshotKeeps(st: Story, n: Node, d: Disk)
    requires NodeInv(st, n, d)
    ensures Left(st, d, MaybeSnapshot(n).0, MaybeSnapshot(n).1)
  {
    hide Holds, Safe, Settled, DiskInv, SnapshotSound, EntryAt, Above;
    var (n', ws) := MaybeSnapshot(n);
    if ws == [] {
      LeftAlone(st, n, d);
    } else {
      var s := ws[0].snapshot;
      SnapshotTaken(st, n);
      SnapshotHolds(st, d, n.log, s);
      HeldIsSound(st, d, n.log);
      HeldIsSound(st, Perform(d, ws[0]), n'.log);
      HeldIsSound(st, Perform(Perform(d, ws[0]), ws[1]), n'.log);
      SafeTwo(st, d, ws[0], ws[1]);
      PerformTwo(d, ws[0], ws[1]);
      SettledAtBase(st, n'.log, n'.base, n'.commit);
    }
  }

  lemma HeldIsSound(st: Story, d: Disk, log: Log)
    requires Holds(st, d, log)
    ensures DiskInv(st, d)
  {
  }
}
