/** Why serializability asks what it asks.  Without what has committed being settled before the next
    validation there is a run, with not a single rollback, whose two transactions each miss what the
    other wrote, so that neither order of them explains their reads; and one rollback of a live
    transaction's secondary leaves half of it. */
module SerializabilityLimits {
  import opened Common
  import opened Rows
  import opened Transactions
  import opened Serializability

  /** Steps without a rollback lead from `s` to `s'`. */
  ghost predicate Leads(s: System, steps: seq<Step>, s': System)
    decreases |steps|
  {
    if steps == [] then s' == s
    else Enabled(s, steps[0]) && !steps[0].RollbackKey? && Leads(Next(s, steps[0]), steps[1..], s')
  }

  lemma {:induction false} LeadsThen(s: System, steps: seq<Step>, s1: System, step: Step)
    requires Leads(s, steps, s1) && Enabled(s1, step) && !step.RollbackKey?
    ensures Leads(s, steps + [step], Next(s1, step))
    decreases |steps|
  {
    hide Next, Enabled;
    if steps == [] {
      assert (steps + [step])[1..] == [];
      assert Leads(Next(s, step), [], Next(s1, step));
    } else {
      assert (steps + [step])[0] == steps[0] && (steps + [step])[1..] == steps[1..] + [step];
      LeadsThen(Next(s, steps[0]), steps[1..], s1, step);
    }
  }

  const A: Bytes := [1]
  const B: Bytes := [2]
  const C: Bytes := [3]

  /** The first has read `C` as missing, and writes `A` and `B`; the second has read `B` as missing,
      and writes `C`. */
  function First(phase: Phase, prewritten: set<nat>, checked: set<Bytes>, commit: nat): Txn {
    Txn(1, [(A, [7]), (B, [8])], prewritten, {(C, None)}, checked, phase, commit)
  }

  function Second(phase: Phase, prewritten: set<nat>, checked: set<Bytes>, commit: nat): Txn {
    Txn(2, [(C, [9])], prewritten, {(B, None)}, checked, phase, commit)
  }

  function LockedBy1(value: Bytes): Row { Row(map[], map[], map[1 := Lock(A, 0, value)]) }

  /** Both have begun, and both have read. */
  lemma BothRead() returns (steps: seq<Step>, s: System)
    ensures Leads(NEW_SYSTEM, steps, s)
    ensures s == System(2, map[], map[1 := First(Pending, {}, {}, 0).(keys := []),
                                      2 := Second(Pending, {}, {}, 0).(keys := [])], None)
  {
    hide Leads;
    var s0 := NEW_SYSTEM;
    assert Leads(s0, [], s0) by { NoSteps(s0); }
    LeadsThen(s0, [], s0, Begin(1));
    var s1 := Next(s0, Begin(1));
    LeadsThen(s0, [] + [Begin(1)], s1, Begin(2));
    var s2 := Next(s1, Begin(2));
    assert Read(RowOf(s2, B), Some(2), 0) == Found(None, 0) by { assert AtMost(EMPTY_ROW.versions, 2) == map[]; }
    steps := [] + [Begin(1)] + [Begin(2)];
    LeadsThen(s0, steps, s2, ReadKey(2, B));
    var s3 := Next(s2, ReadKey(2, B));
    steps := steps + [ReadKey(2, B)];
    assert Read(RowOf(s3, C), Some(1), 0) == Found(None, 0) by { assert AtMost(EMPTY_ROW.versions, 1) == map[]; }
    LeadsThen(s0, steps, s3, ReadKey(1, C));
    s := Next(s3, ReadKey(1, C));
    steps := steps + [ReadKey(1, C)];
    assert s.txns[2].observed == {(B, None)} && s.txns[1].observed == {(C, None)};
    assert s.txns == map[1 := First(Pending, {}, {}, 0).(keys := []), 2 := Second(Pending, {}, {}, 0).(keys := [])];
  }

  /** Both know what they will write. */
  lemma BothKnow() returns (steps: seq<Step>, s: System)
    ensures Leads(NEW_SYSTEM, steps, s)
    ensures s == System(2, map[], map[1 := First(Pending, {}, {}, 0), 2 := Second(Pending, {}, {}, 0)], None)
  {
    hide Leads;
    var steps0, s3 := BothRead();
    LeadsThen(NEW_SYSTEM, steps0, s3, AddWrite(1, A, [7]));
    var s4 := Next(s3, AddWrite(1, A, [7]));
    steps := steps0 + [AddWrite(1, A, [7])];
    LeadsThen(NEW_SYSTEM, steps, s4, AddWrite(1, B, [8]));
    var s5 := Next(s4, AddWrite(1, B, [8]));
    steps := steps + [AddWrite(1, B, [8])];
    LeadsThen(NEW_SYSTEM, steps, s5, AddWrite(2, C, [9]));
    s := Next(s5, AddWrite(2, C, [9]));
    steps := steps + [AddWrite(2, C, [9])];
    assert s.txns[1].keys == [(A, [7]), (B, [8])] && s.txns[2].keys == [(C, [9])];
    assert s.txns == map[1 := First(Pending, {}, {}, 0), 2 := Second(Pending, {}, {}, 0)];
  }

  lemma NoSteps(s: System)
    ensures Leads(s, [], s)
  {
  }

  /** The first holds its locks. */
  lemma FirstLocks() returns (steps: seq<Step>, s: System)
    ensures Leads(NEW_SYSTEM, steps, s)
    ensures s == System(2, map[A := LockedBy1([7]), B := LockedBy1([8])],
                        map[1 := First(Prewriting, {0, 1}, {}, 0), 2 := Second(Pending, {}, {}, 0)], None)
  {
    hide Leads;
    var steps0, s0 := BothKnow();
    LeadsThen(NEW_SYSTEM, steps0, s0, StartCommit(1));
    var s1 := Next(s0, StartCommit(1));
    LeadsThen(NEW_SYSTEM, steps0 + [StartCommit(1)], s1, PrewriteKey(1, 0, 0));
    var s2 := Next(s1, PrewriteKey(1, 0, 0));
    assert s2.txns[1].prewritten == {0};
    LeadsThen(NEW_SYSTEM, steps0 + [StartCommit(1)] + [PrewriteKey(1, 0, 0)], s2, PrewriteKey(1, 1, 0));
    s := Next(s2, PrewriteKey(1, 1, 0));
    steps := steps0 + [StartCommit(1)] + [PrewriteKey(1, 0, 0)] + [PrewriteKey(1, 1, 0)];
    assert {0} + {1} == {0, 1};
  }

  lemma ReadsOne(t: Txn, key: Bytes)
    requires t.observed == {(key, None)}
    ensures ReadKeys(t) == {key}
  {
    assert (key, None) in t.observed;
  }

  /** It validates what it read. */
  lemma FirstDraws(base: System, steps0: seq<Step>, s0: System, row: Row) returns (steps: seq<Step>, s: System)
    requires Leads(base, steps0, s0)
    requires s0 == System(2, map[A := LockedBy1([7]), B := row],
                          map[1 := First(Prewriting, {0, 1}, {}, 0), 2 := Second(Pending, {}, {}, 0)], None)
    ensures Leads(base, steps, s)
    ensures s == System(3, map[A := LockedBy1([7]), B := row],
                        map[1 := First(Drawn, {0, 1}, {C}, 3), 2 := Second(Pending, {}, {}, 0)], Some(1))
  {
    hide Leads, ReadKeys;
    LeadsThen(base, steps0, s0, Enter(1));
    var s1 := Next(s0, Enter(1));
    ReadsOne(s1.txns[1], C);
    LeadsThen(base, steps0 + [Enter(1)], s1, Validate(1, C));
    var s2 := Next(s1, Validate(1, C));
    assert Newest(RowOf(s1, C).writes) == None && s2.txns[1].checked == {C};
    ReadsOne(s2.txns[1], C);
    LeadsThen(base, steps0 + [Enter(1)] + [Validate(1, C)], s2, Draw(1));
    s := Next(s2, Draw(1));
    steps := steps0 + [Enter(1)] + [Validate(1, C)] + [Draw(1)];
  }

  /** And it commits its primary, whatever there is at `B`. */
  lemma CommitsPrimary(base: System, steps0: seq<Step>, s0: System, row: Row) returns (steps: seq<Step>, s: System)
    requires Leads(base, steps0, s0)
    requires s0 == System(2, map[A := LockedBy1([7]), B := row],
                          map[1 := First(Prewriting, {0, 1}, {}, 0), 2 := Second(Pending, {}, {}, 0)], None)
    ensures Leads(base, steps, s)
    ensures s == System(3, map[A := Row(map[3 := Value([7])], map[3 := 1], map[]), B := row],
                        map[1 := First(Committed, {0, 1}, {C}, 3), 2 := Second(Pending, {}, {}, 0)], None)
  {
    hide Leads, ApplyRow;
    var steps1, s1 := FirstDraws(base, steps0, s0, row);
    LeadsThen(base, steps1, s1, CommitPrimary(1));
    s := Next(s1, CommitPrimary(1));
    steps := steps1 + [CommitPrimary(1)];
    CommitRow();
    assert RowOf(s1, A) == LockedBy1([7]);
  }

  lemma CommitRow()
    ensures ApplyRow(LockedBy1([7]), 0, Commit(A, 1, 3), 0) ==
            Effect(SUCCESS, Row(map[3 := Value([7])], map[3 := 1], map[]), 3)
  {
    assert LockedBy1([7]).locks - {1} == map[];
  }

  function Halfway(second: Txn, locked: Row, holder: Option<nat>): System {
    System(3, map[A := Row(map[3 := Value([7])], map[3 := 1], map[]), B := LockedBy1([8]), C := locked],
           map[1 := First(Committed, {0, 1}, {C}, 3), 2 := second], holder)
  }

  function LockedBy2(): Row { Row(map[], map[], map[2 := Lock(C, 0, [9])]) }

  /** The second enters the commit section while `B` is still to be settled. */
  lemma SecondEnters() returns (steps: seq<Step>, s: System)
    ensures Leads(NEW_SYSTEM, steps, s) && s == Halfway(Second(Validating, {0}, {}, 0), LockedBy2(), Some(2))
  {
    hide Leads;
    var locked, held := FirstLocks();
    var steps0, s0 := CommitsPrimary(NEW_SYSTEM, locked, held, LockedBy1([8]));
    LeadsThen(NEW_SYSTEM, steps0, s0, StartCommit(2));
    var s1 := Next(s0, StartCommit(2));
    LeadsThen(NEW_SYSTEM, steps0 + [StartCommit(2)], s1, PrewriteKey(2, 0, 0));
    var s2 := Next(s1, PrewriteKey(2, 0, 0));
    assert {} + {0} == {0} && s2.txns[2] == Second(Prewriting, {0}, {}, 0);
    steps := steps0 + [StartCommit(2)] + [PrewriteKey(2, 0, 0)];
    LeadsThen(NEW_SYSTEM, steps, s2, Enter(2));
    s := Next(s2, Enter(2));
    steps := steps + [Enter(2)];
  }

  /** It validates what it read against the write records, finds none, and commits. */
  lemma SecondCommits() returns (steps: seq<Step>, s: System)
    ensures Leads(NEW_SYSTEM, steps, s)
    ensures s.txns == map[1 := First(Committed, {0, 1}, {C}, 3), 2 := Second(Committed, {0}, {B}, 4)]
  {
    hide Leads, ReadKeys;
    var steps0, s3 := SecondEnters();
    ReadsOne(s3.txns[2], B);
    LeadsThen(NEW_SYSTEM, steps0, s3, Validate(2, B));
    var s4 := Next(s3, Validate(2, B));
    assert Newest(RowOf(s3, B).writes) == None && s4.txns[2].checked == {B};
    assert s4 == Halfway(Second(Validating, {0}, {B}, 0), LockedBy2(), Some(2));
    ReadsOne(s4.txns[2], B);
    LeadsThen(NEW_SYSTEM, steps0 + [Validate(2, B)], s4, Draw(2));
    var s5 := Next(s4, Draw(2));
    assert s5.txns[2] == Second(Drawn, {0}, {B}, 4) && RowOf(s5, C) == LockedBy2();
    LeadsThen(NEW_SYSTEM, steps0 + [Validate(2, B)] + [Draw(2)], s5, CommitPrimary(2));
    s := Next(s5, CommitPrimary(2));
    steps := steps0 + [Validate(2, B)] + [Draw(2)] + [CommitPrimary(2)];
  }

  /** Run one at a time in this order, each finds at its turn every value it read. */
  ghost predicate Explains(order: seq<Txn>) {
    forall n, o :: 0 <= n < |order| && o in order[n].observed ==> Lookup(Serially(order[..n]), o.0) == o.1
  }

  /** All the committed transactions, each once, in any order. */
  ghost predicate Arranges(s: System, order: seq<Txn>) {
    && (forall i :: 0 <= i < |order| ==> IsCommitted(s, order[i]))
    && (forall i, j :: 0 <= i < j < |order| ==> order[i] != order[j])
    && (forall u :: u in s.txns && s.txns[u].phase == Committed ==> s.txns[u] in order)
  }

  /** Write skew: no order whatever of the committed transactions explains what they read. */
  lemma UnsettledSkew() returns (steps: seq<Step>, s: System)
    ensures Leads(NEW_SYSTEM, steps, s)
    ensures exists order :: SerialOrder(s, order)
    ensures forall order :: Arranges(s, order) ==> !Explains(order)
  {
    hide Leads, Explains, Arranges;
    steps, s := SecondCommits();
    var first, second := First(Committed, {0, 1}, {C}, 3), Second(Committed, {0}, {B}, 4);
    assert CommittedIn(s, first, 1) && CommittedIn(s, second, 2);
    assert SerialOrder(s, [first, second]);
    forall order | Arranges(s, order) ensures !Explains(order) {
      EitherOrder(s, order, first, second);
      NeitherExplains(first, second);
    }
  }

  lemma EitherOrder(s: System, order: seq<Txn>, first: Txn, second: Txn)
    requires s.txns == map[1 := first, 2 := second] && first.phase == second.phase == Committed && first != second
    requires Arranges(s, order)
    ensures order == [first, second] || order == [second, first]
  {
    assert s.txns[1] in order && s.txns[2] in order;
    var i :| 0 <= i < |order| && order[i] == first;
    var j :| 0 <= j < |order| && order[j] == second;
    forall k | 0 <= k < |order| ensures Either(k, i, j) {
      assert IsCommitted(s, order[k]);
    }
    if |order| > 2 {
      Third(i, j);
    }
  }

  predicate Either(k: int, i: int, j: int) { k == i || k == j }

  lemma Third(i: int, j: int)
    ensures !Either(0, i, j) || !Either(1, i, j) || !Either(2, i, j)
  {
  }

  lemma NeitherExplains(first: Txn, second: Txn)
    requires first.keys == [(A, [7]), (B, [8])] && (C, None) in first.observed
    requires second.keys == [(C, [9])] && (B, None) in second.observed
    ensures !Explains([first, second]) && !Explains([second, first])
  {
    hide Serially;
    assert [first, second][..1] == [first] && [second, first][..1] == [second];
    SeriallyFirst(first);
    SeriallySecond(second);
    assert [first, second][1] == second && [second, first][1] == first;
  }

  /** A secondary's lock is rolled back while its primary's is held: the transaction commits, everything
      is settled, and half of what it wrote is not there. */
  lemma HalfRolledBack() returns (steps: seq<Step>, s: System, more: seq<Step>, s': System, order: seq<Txn>)
    ensures Leads(NEW_SYSTEM, steps, s) && Leads(Next(s, RollbackKey(B, 1)), more, s')
    ensures AllSettled(s') && SerialOrder(s', order)
    ensures Lookup(Serially(order), B) == Some([8]) && Visible(RowOf(s', B), s'.clock) == None
  {
    hide Leads;
    steps, s := FirstLocks();
    var s0 := Next(s, RollbackKey(B, 1));
    assert LockedBy1([8]).locks - {1} == map[] && RowOf(s0, B) == EMPTY_ROW;
    NoSteps(s0);
    more, s' := CommitsPrimary(s0, [], s0, EMPTY_ROW);
    var first := First(Committed, {0, 1}, {C}, 3);
    assert s'.txns == map[1 := first, 2 := Second(Pending, {}, {}, 0)];
    order := [first];
    assert CommittedIn(s', first, 1);
    SeriallyFirst(first);
    assert AtMost(EMPTY_ROW.versions, 3) == map[];
  }

  lemma SeriallyFirst(first: Txn)
    requires first.keys == [(A, [7]), (B, [8])]
    ensures Lookup(Serially([first]), B) == Some([8])
  {
    assert [first][..0] == [];
    assert Serially([first]) == WriteAll(map[], first.keys);
    var keys := first.keys;
    assert keys[..1] == [(A, [7])] && [(A, [7])][..0] == [];
  }

  lemma SeriallySecond(second: Txn)
    requires second.keys == [(C, [9])]
    ensures Lookup(Serially([second]), C) == Some([9])
  {
    assert [second][..0] == [];
    assert Serially([second]) == WriteAll(map[], second.keys);
    assert second.keys[..0] == [];
  }
}
