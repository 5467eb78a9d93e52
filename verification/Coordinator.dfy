/** The coordinator as it runs: each call is a sequence of the steps of `Transactions`. */
module Coordinator {
  import opened Common
  import opened Rows
  import opened RowLaws
  import Paths
  import opened Transactions
  import opened Serializability

  // ---- sequences of steps ---------------------------------------------------------

  /** One step that keeps the premises of serializability. */
  ghost predicate Steps(s: System, s': System) {
    exists step :: StepsBy(s, step, s')
  }

  ghost predicate StepsBy(s: System, step: Step, s': System) {
    Enabled(s, step) && Orderly(s, step) && s' == Next(s, step)
  }

  ghost predicate Reaches(s: System, s': System) { Paths.Reaches(Steps, s, s') }

  lemma ReachesSelf(s: System)
    ensures Reaches(s, s)
  {
    Paths.ReachesSelf(Steps, s);
  }

  lemma ReachesNext(s: System, s': System, step: Step)
    requires Reaches(s, s') && Enabled(s', step) && Orderly(s', step)
    ensures Reaches(s, Next(s', step))
  {
    hide Next, Enabled, Orderly;
    assert StepsBy(s', step, Next(s', step));
    Paths.ReachesThen(Steps, s, s', Next(s', step));
  }

  lemma ReachesOn(s: System, s1: System, s2: System)
    requires Reaches(s, s1) && Reaches(s1, s2)
    ensures Reaches(s, s2)
  {
    Paths.ReachesOn(Steps, s, s1, s2);
  }

  lemma {:induction false} StepsOf(states: seq<System>) returns (steps: seq<Step>)
    requires Paths.Chain(Steps, states)
    ensures |steps| == |states| - 1 && forall i :: 0 <= i < |steps| ==> StepsBy(states[i], steps[i], states[i + 1])
    decreases |states|
  {
    hide StepsBy;
    steps := [];
    if |states| > 1 {
      var n := |states| - 1;
      steps := StepsOf(states[..n]);
      assert Steps(states[n - 1], states[n]);
      var step :| StepsBy(states[n - 1], step, states[n]);
      steps := steps + [step];
    }
  }

  /** Every state that calls can bring the coordinator to is the last of an orderly run. */
  lemma OrderlyTo(s: System) returns (states: seq<System>, steps: seq<Step>)
    requires Reaches(NEW_SYSTEM, s)
    ensures OrderlyRun(states, steps) && |states| > 0 && states[|states| - 1] == s
  {
    hide Next, Enabled, Orderly;
    states :| Paths.ChainBetween(Steps, NEW_SYSTEM, s, states);
    steps := StepsOf(states);
    assert states[0] == NEW_SYSTEM && |states| == |steps| + 1;
    forall i | 0 <= i < |steps|
      ensures Enabled(states[i], steps[i]) && states[i + 1] == Next(states[i], steps[i]) && Orderly(states[i], steps[i])
    {
      assert StepsBy(states[i], steps[i], states[i + 1]);
    }
    assert Run(states, steps);
  }

  /** In such a state the committed transactions are serializable: run one at a time by commit
      timestamp, each finds at its turn every value it read. */
  lemma CallsSerialize(s: System, order: seq<Txn>, n: nat, o: (Bytes, Option<Bytes>))
    requires Reaches(NEW_SYSTEM, s) && SerialOrder(s, order)
    requires n < |order| && o in order[n].observed
    ensures Lookup(Serially(order[..n]), o.0) == o.1
  {
    hide OrderlyRun, Serially, SerialOrder, Reaches;
    var states, steps := OrderlyTo(s);
    Serializable(states, steps, |states| - 1, order, n, o);
  }

  /** And together they leave the database. */
  lemma CallsLeave(s: System, order: seq<Txn>, key: Bytes)
    requires Reaches(NEW_SYSTEM, s) && AllSettled(s) && SerialOrder(s, order)
    ensures Lookup(Serially(order), key) == Visible(RowOf(s, key), s.clock)
  {
    hide OrderlyRun, Serially, SerialOrder, Reaches, AllSettled, Visible;
    var states, steps := OrderlyTo(s);
    SerialOutcome(states, steps, |states| - 1, order, key);
  }

  // ---- rows -----------------------------------------------------------------------

  /** No row has gained a version or a write record. */
  ghost predicate NothingWritten(rows: Table, rows': Table) {
    forall k :: At(rows', k).versions == At(rows, k).versions && At(rows', k).writes == At(rows, k).writes
  }

  ghost predicate OneLockEach(rows: Table) {
    forall k :: |At(rows, k).locks| <= 1
  }

  /** The first `n` keys of `t` are locked, each with its value, and are different keys. */
  ghost predicate Locked(rows: Table, t: Txn, n: nat) {
    && n <= |t.keys|
    && (forall i :: 0 <= i < n ==> ValidKey(t.keys[i].0) && KeyHeld(At(rows, t.keys[i].0), t, i))
    && (forall i, j :: 0 <= i < j < n ==> t.keys[i].0 != t.keys[j].0)
  }

  ghost predicate KeysApart(t: Txn, n: nat) {
    n <= |t.keys| && forall i, j :: 0 <= i < j < n ==> t.keys[i].0 != t.keys[j].0
  }

  /** The key's row is not locked, and nothing has been written there after the transaction started. */
  ghost predicate KeyFree(rows: Table, t: Txn, i: nat)
    requires i < |t.keys|
  {
    && ValidKey(t.keys[i].0) && ValidTs(t.start)
    && At(rows, t.keys[i].0).locks == map[] && NothingAbove(At(rows, t.keys[i].0), t.start)
  }

  /** The transaction can lock all that it writes. */
  ghost predicate CanLock(rows: Table, t: Txn) {
    KeysApart(t, |t.keys|) && forall i :: 0 <= i < |t.keys| ==> KeyFree(rows, t, i)
  }

  /** What a commit rests on: everything can be locked, nothing read has been written since, and there
      is a timestamp left to commit at. */
  ghost predicate CanCommit(rows: Table, t: Txn, clock: nat) {
    t.keys == [] || (CanLock(rows, t) && ReadsFresh(rows, t) && ValidTs(clock + 1))
  }

  ghost predicate BeforeKey(t: Txn, n: nat, k: Bytes) {
    exists j :: 0 <= j < n && j < |t.keys| && t.keys[j].0 == k
  }

  /** The first `n` keys were free in `rows0`, and no other row is touched since. */
  ghost predicate FreeSoFar(rows0: Table, rows: Table, t: Txn, n: nat) {
    && KeysApart(t, n) && (forall i :: 0 <= i < n ==> KeyFree(rows0, t, i))
    && forall k :: !BeforeKey(t, n, k) ==> At(rows, k) == At(rows0, k)
  }

  lemma NoneYet(rows: Table, t: Txn)
    ensures FreeSoFar(rows, rows, t, 0)
  {
  }

  lemma NewKey(rows: Table, t: Txn, n: nat)
    requires n < |t.keys| && Locked(rows, t, n) && At(rows, t.keys[n].0).locks == map[]
    ensures !BeforeKey(t, n, t.keys[n].0)
  {
    forall j | 0 <= j < n ensures t.keys[j].0 != t.keys[n].0 {
      assert KeyHeld(At(rows, t.keys[j].0), t, j);
    }
  }

  lemma FreeMore(rows0: Table, rows: Table, t: Txn, n: nat, rows': Table)
    requires n < |t.keys| && FreeSoFar(rows0, rows, t, n) && Locked(rows, t, n) && KeyFree(rows, t, n)
    requires forall k :: k != t.keys[n].0 ==> At(rows', k) == At(rows, k)
    ensures FreeSoFar(rows0, rows', t, n + 1)
  {
    hide ValidKey, ValidTs, NothingAbove;
    NewKey(rows, t, n);
    assert At(rows, t.keys[n].0) == At(rows0, t.keys[n].0);
    forall k | !BeforeKey(t, n + 1, k) ensures At(rows', k) == At(rows0, k) {
      assert !BeforeKey(t, n, k);
    }
  }

  lemma NotFree(rows0: Table, rows: Table, t: Txn, n: nat)
    requires n < |t.keys| && FreeSoFar(rows0, rows, t, n) && !KeyFree(rows, t, n)
    ensures !CanLock(rows0, t)
  {
    hide ValidKey, ValidTs, NothingAbove;
    if BeforeKey(t, n, t.keys[n].0) {
      assert !KeysApart(t, |t.keys|);
    } else {
      assert !KeyFree(rows0, t, n);
    }
  }

  lemma AllFree(rows0: Table, rows: Table, t: Txn)
    requires FreeSoFar(rows0, rows, t, |t.keys|)
    ensures CanLock(rows0, t)
  {
  }

  lemma SameFree(rows: Table, t: Txn, t': Txn, i: nat)
    requires t'.keys == t.keys && t'.start == t.start && i < |t.keys|
    ensures KeyFree(rows, t, i) <==> KeyFree(rows, t', i)
  {
  }

  lemma CanLockSame(rows: Table, t: Txn, t': Txn)
    requires t'.keys == t.keys && t'.start == t.start
    ensures CanLock(rows, t) <==> CanLock(rows, t')
  {
    assert forall i :: 0 <= i < |t.keys| ==> (KeyFree(rows, t, i) <==> KeyFree(rows, t', i));
  }

  ghost predicate GainedRow(row: Row, row': Row, t: Txn, i: nat)
    requires i < |t.keys|
  {
    && row'.versions == row.versions[t.commit := Value(t.keys[i].1)]
    && row'.writes == row.writes[t.commit := t.start]
  }

  /** The keys from the `m`-th to the `n`-th have gained the transaction's writes, and no row anything
      else. */
  ghost predicate Gained(rows: Table, rows': Table, t: Txn, m: nat, n: nat) {
    && m <= n <= |t.keys|
    && (forall i :: m <= i < n ==> GainedRow(At(rows, t.keys[i].0), At(rows', t.keys[i].0), t, i))
    && forall k :: (forall i :: m <= i < n ==> t.keys[i].0 != k) ==>
         At(rows', k).versions == At(rows, k).versions && At(rows', k).writes == At(rows, k).writes
  }

  lemma GainedNone(rows: Table, t: Txn, m: nat)
    requires m <= |t.keys|
    ensures Gained(rows, rows, t, m, m)
  {
  }

  lemma GainedMore(rows: Table, rows': Table, t: Txn, m: nat, n: nat, row: Row)
    requires Gained(rows, rows', t, m, n) && n < |t.keys| && KeysApart(t, |t.keys|)
    requires GainedRow(At(rows', t.keys[n].0), row, t, n)
    ensures Gained(rows, rows'[t.keys[n].0 := row], t, m, n + 1)
  {
    var rows'' := rows'[t.keys[n].0 := row];
    assert forall i :: m <= i < n ==> t.keys[i].0 != t.keys[n].0;
    forall i | m <= i < n + 1 ensures GainedRow(At(rows, t.keys[i].0), At(rows'', t.keys[i].0), t, i) {
      if i < n { assert GainedRow(At(rows, t.keys[i].0), At(rows', t.keys[i].0), t, i); }
    }
    forall k | (forall i :: m <= i < n + 1 ==> t.keys[i].0 != k)
      ensures At(rows'', k).versions == At(rows, k).versions && At(rows'', k).writes == At(rows, k).writes
    {
      assert t.keys[n].0 != k;
    }
  }

  lemma GainedOn(a: Table, b: Table, c: Table, t: Txn, m: nat, n: nat)
    requires Gained(a, b, t, 0, m) && Gained(b, c, t, m, n) && KeysApart(t, |t.keys|)
    ensures Gained(a, c, t, 0, n)
  {
    forall i | 0 <= i < n ensures GainedRow(At(a, t.keys[i].0), At(c, t.keys[i].0), t, i) {
      if i < m {
        assert GainedRow(At(a, t.keys[i].0), At(b, t.keys[i].0), t, i);
        assert forall j :: m <= j < n ==> t.keys[j].0 != t.keys[i].0;
      } else {
        assert GainedRow(At(b, t.keys[i].0), At(c, t.keys[i].0), t, i);
        assert forall j :: 0 <= j < m ==> t.keys[j].0 != t.keys[i].0;
      }
    }
    forall k | (forall i :: 0 <= i < n ==> t.keys[i].0 != k)
      ensures At(c, k).versions == At(a, k).versions && At(c, k).writes == At(a, k).writes
    {
      assert forall i :: 0 <= i < m ==> t.keys[i].0 != k;
      assert forall i :: m <= i < n ==> t.keys[i].0 != k;
    }
  }

  lemma GainedAfter(a: Table, b: Table, c: Table, t: Txn, n: nat)
    requires NothingWritten(a, b) && Gained(b, c, t, 0, n)
    ensures Gained(a, c, t, 0, n)
  {
    forall i | 0 <= i < n ensures GainedRow(At(a, t.keys[i].0), At(c, t.keys[i].0), t, i) {
      assert GainedRow(At(b, t.keys[i].0), At(c, t.keys[i].0), t, i);
    }
  }

  lemma GainedSame(rows: Table, rows': Table, t: Txn, t': Txn, m: nat, n: nat)
    requires Gained(rows, rows', t, m, n) && t'.keys == t.keys && t'.start == t.start && t'.commit == t.commit
    ensures Gained(rows, rows', t', m, n)
  {
    forall i | m <= i < n ensures GainedRow(At(rows, t.keys[i].0), At(rows', t.keys[i].0), t', i) {
      assert GainedRow(At(rows, t.keys[i].0), At(rows', t.keys[i].0), t, i);
    }
  }

  /** The first `n` keys of `t` carry its writes. */
  ghost predicate Written(rows: Table, t: Txn, n: nat) {
    n <= |t.keys| && forall i :: 0 <= i < n ==> KeyWritten(At(rows, t.keys[i].0), t, i)
  }

  ghost predicate AmongKeys(t: Txn, n: nat, k: Bytes) {
    exists j :: n <= j < |t.keys| && t.keys[j].0 == k
  }

  /** Whatever lock `t` holds that it did not hold in `rows0` is on one of its keys from the
      `n`-th on. */
  ghost predicate Leftover(rows0: Table, rows: Table, t: Txn, n: nat) {
    forall k :: t.start in At(rows, k).locks && t.start !in At(rows0, k).locks ==>
      ValidKey(k) && ValidTs(t.start) && AmongKeys(t, n, k)
  }

  ghost predicate SameLocks(a: map<nat, Lock>, b: map<nat, Lock>, start: nat) {
    forall t :: t != start ==> (t in b <==> t in a) && (t in b ==> b[t] == a[t])
  }

  /** The locks are what they were, but for those of `start`. */
  ghost predicate LocksOnly(rows: Table, rows': Table, start: nat) {
    forall k :: SameLocks(At(rows, k).locks, At(rows', k).locks, start)
  }

  lemma LocksOnlySelf(rows: Table, start: nat)
    ensures LocksOnly(rows, rows, start)
  {
  }

  lemma LocksOnlyOn(a: Table, b: Table, c: Table, start: nat)
    requires LocksOnly(a, b, start) && LocksOnly(b, c, start)
    ensures LocksOnly(a, c, start)
  {
    forall k ensures SameLocks(At(a, k).locks, At(c, k).locks, start) {
      assert SameLocks(At(a, k).locks, At(b, k).locks, start) && SameLocks(At(b, k).locks, At(c, k).locks, start);
    }
  }

  lemma LocksOnlyRow(a: Table, b: Table, key: Bytes, row: Row, start: nat)
    requires LocksOnly(a, b, start) && SameLocks(At(b, key).locks, row.locks, start)
    ensures LocksOnly(a, b[key := row], start)
  {
    forall k ensures SameLocks(At(a, k).locks, At(b[key := row], k).locks, start) {
      assert SameLocks(At(a, k).locks, At(b, k).locks, start);
    }
  }

  /** Different transactions have different start timestamps, none of them still to come. */
  ghost predicate StartsApart(txns: map<nat, Txn>, clock: nat) {
    && (forall p :: p in txns ==> txns[p].start <= clock)
    && (forall p, q :: p in txns && q in txns && txns[p].start == txns[q].start ==> p == q)
  }

  lemma StartsStay(txns: map<nat, Txn>, clock: nat, id: nat, t: Txn, clock': nat)
    requires StartsApart(txns, clock) && id in txns && t.start == txns[id].start && clock <= clock'
    ensures StartsApart(txns[id := t], clock')
  {
  }

  /** Everyone but `id` that has written is settled. */
  ghost predicate OthersSettled(s: System, id: nat) {
    forall u :: u in s.txns && u != id && Wrote(s.txns[u]) ==> Settled(s, s.txns[u])
  }

  lemma OthersStaySettled(s: System, s': System, id: nat, start: nat)
    requires OthersSettled(s, id) && id in s.txns && id in s'.txns && s'.txns == s.txns[id := s'.txns[id]]
    requires StartsApart(s.txns, s.clock) && s.txns[id].start == start && LocksOnly(s.rows, s'.rows, start)
    ensures OthersSettled(s', id)
  {
    hide LocksOnly;
    forall u | u in s'.txns && u != id && Wrote(s'.txns[u]) ensures Settled(s', s'.txns[u]) {
      var t := s'.txns[u];
      assert Settled(s, t);
      forall i | 0 <= i < |t.keys| ensures t.start !in RowOf(s', t.keys[i].0).locks {
        NotGained(s.rows, s'.rows, start, t.keys[i].0, t.start);
      }
    }
  }

  lemma NotGained(rows: Table, rows': Table, start: nat, k: Bytes, t: nat)
    requires LocksOnly(rows, rows', start) && t != start && t !in At(rows, k).locks
    ensures t !in At(rows', k).locks
  {
    assert SameLocks(At(rows, k).locks, At(rows', k).locks, start);
  }

  lemma AllAndOthers(s: System, id: nat)
    ensures AllSettled(s) ==> OthersSettled(s, id)
    ensures OthersSettled(s, id) && id in s.txns && (Wrote(s.txns[id]) ==> Settled(s, s.txns[id])) ==> AllSettled(s)
  {
  }

  lemma PutRow(rows: Table, key: Bytes, row: Row)
    requires OneLockEach(rows) && |row.locks| <= 1
    requires row.versions == At(rows, key).versions && row.writes == At(rows, key).writes
    ensures OneLockEach(rows[key := row]) && NothingWritten(rows, rows[key := row])
  {
    var rows' := rows[key := row];
    forall k ensures |At(rows', k).locks| <= 1 {
      assert |At(rows, k).locks| <= 1;
    }
  }

  ghost predicate Unlocked(row: Row, row': Row, start: nat) {
    && row'.versions == row.versions && row'.writes == row.writes
    && (row'.locks == row.locks || row'.locks == row.locks - {start})
  }

  lemma RollbackRow(row: Row, key: Bytes, start: nat)
    ensures var row' := ApplyRow(row, 0, Rollback(key, start), 0).row;
            Unlocked(row, row', start) && (ValidKey(key) && ValidTs(start) ==> start !in row'.locks)
  {
  }

  lemma RollbackTable(rows0: Table, rows: Table, t: Txn, n: nat, row: Row)
    requires n < |t.keys| && OneLockEach(rows) && Leftover(rows0, rows, t, n)
    requires Unlocked(At(rows, t.keys[n].0), row, t.start)
    requires ValidKey(t.keys[n].0) && ValidTs(t.start) ==> t.start !in row.locks
    ensures var rows' := rows[t.keys[n].0 := row];
            OneLockEach(rows') && NothingWritten(rows, rows') && Leftover(rows0, rows', t, n + 1)
  {
    hide ValidKey, ValidTs;
    var key := t.keys[n].0;
    var rows' := rows[key := row];
    assert row.locks.Keys <= At(rows, key).locks.Keys;
    SubsetSize(row.locks.Keys, At(rows, key).locks.Keys);
    assert |At(rows, key).locks| <= 1;
    PutRow(rows, key, row);
    hide OneLockEach, NothingWritten;
    forall k | t.start in At(rows', k).locks && t.start !in At(rows0, k).locks
      ensures ValidKey(k) && ValidTs(t.start) && AmongKeys(t, n + 1, k)
    {
      assert t.start in At(rows, k).locks;
      assert AmongKeys(t, n, k);
    }
  }

  lemma UnlockedOnly(row: Row, row': Row, start: nat)
    requires Unlocked(row, row', start)
    ensures SameLocks(row.locks, row'.locks, start)
  {
  }

  /** None of the first `n` keys is locked by `t` any more. */
  ghost predicate Freed(rows: Table, t: Txn, n: nat) {
    n <= |t.keys| && forall i :: 0 <= i < n && ValidKey(t.keys[i].0) && ValidTs(t.start) ==>
      t.start !in At(rows, t.keys[i].0).locks
  }

  lemma NothingFreed(rows: Table, t: Txn)
    ensures Freed(rows, t, 0)
  {
  }

  lemma FreedMore(rows: Table, t: Txn, n: nat, row: Row)
    requires n < |t.keys| && Freed(rows, t, n) && Unlocked(At(rows, t.keys[n].0), row, t.start)
    requires ValidKey(t.keys[n].0) && ValidTs(t.start) ==> t.start !in row.locks
    ensures Freed(rows[t.keys[n].0 := row], t, n + 1)
  {
    hide ValidKey, ValidTs;
  }

  lemma SameRowsSettled(s: System, s': System, id: nat)
    requires AllSettled(s) && s'.rows == s.rows && id in s'.txns && !Wrote(s'.txns[id])
    requires forall u :: u in s'.txns && u != id ==> u in s.txns && s'.txns[u] == s.txns[u]
    ensures AllSettled(s')
  {
    forall u | u in s'.txns && Wrote(s'.txns[u]) ensures Settled(s', s'.txns[u]) {
      assert Settled(s, s.txns[u]);
    }
  }

  lemma WrittenOn(a: Table, b: Table, c: Table)
    requires NothingWritten(a, b) && NothingWritten(b, c)
    ensures NothingWritten(a, c)
  {
  }

  /** A prewrite on a table of rows. */
  lemma PrewriteTable(rows0: Table, rows: Table, t: Txn, n: nat, now: int)
    requires n < |t.keys| && OneLockEach(rows) && Locked(rows, t, n) && Leftover(rows0, rows, t, 0)
    ensures var c := Prewrite(t.keys[n].0, t.keys[n].1, t.start, t.keys[0].0);
            var e := ApplyRow(At(rows, t.keys[n].0), 0, c, now);
            var rows' := rows[t.keys[n].0 := e.row];
            && OneLockEach(rows') && NothingWritten(rows, rows') && Leftover(rows0, rows', t, 0)
            && (e.code == SUCCESS ==> Locked(rows', t, n + 1) && ValidTs(t.start) && ValidKey(t.keys[n].0))
  {
    var key := t.keys[n].0;
    var c := Prewrite(key, t.keys[n].1, t.start, t.keys[0].0);
    var e := ApplyRow(At(rows, key), 0, c, now);
    PrewriteEffect(At(rows, key), c, now);
    if e.code == SUCCESS { PrewriteValid(At(rows, key), c, now); }
    hide ApplyRow, ValidKey, ValidTs;
    if e.code == SUCCESS {
      assert e.row.locks.Keys == {t.start};
      LockOne(rows, t, n, e.row);
    }
    assert |At(rows, key).locks| <= 1;
    PutRow(rows, key, e.row);
    hide OneLockEach, NothingWritten, Locked;
    assert AmongKeys(t, 0, key);
  }

  lemma PrewriteOnly(row: Row, c: Command, now: int)
    requires c.Prewrite?
    ensures c.startTs >= 0 ==> SameLocks(row.locks, ApplyRow(row, 0, c, now).row.locks, c.startTs as nat)
  {
  }

  lemma LockOne(rows: Table, t: Txn, n: nat, row: Row)
    requires n < |t.keys| && Locked(rows, t, n) && At(rows, t.keys[n].0).locks == map[]
    requires KeyHeld(row, t, n) && ValidKey(t.keys[n].0)
    ensures Locked(rows[t.keys[n].0 := row], t, n + 1)
  {
    forall i | 0 <= i < n ensures t.keys[i].0 != t.keys[n].0 {
      assert KeyHeld(At(rows, t.keys[i].0), t, i);
    }
  }

  lemma PrewriteValid(row: Row, c: Command, now: int)
    requires c.Prewrite? && ApplyRow(row, 0, c, now).code == SUCCESS
    ensures ValidKey(c.key) && ValidTs(c.startTs)
  {
  }

  /** Of the keys, the first `n` are written and the rest still held. */
  ghost predicate Settling(rows: Table, t: Txn, n: nat) {
    && n <= |t.keys|
    && (forall i :: 0 <= i < n ==> KeyWritten(At(rows, t.keys[i].0), t, i) && t.start !in At(rows, t.keys[i].0).locks)
    && (forall i :: n <= i < |t.keys| ==> ValidKey(t.keys[i].0) && KeyHeld(At(rows, t.keys[i].0), t, i))
    && (forall i, j :: 0 <= i < j < |t.keys| ==> t.keys[i].0 != t.keys[j].0)
  }

  lemma CommitHeld(row: Row, t: Txn, n: nat)
    requires n < |t.keys| && KeyHeld(row, t, n) && ValidKey(t.keys[n].0) && ValidTs(t.start) && ValidTs(t.commit)
    ensures var e := ApplyRow(row, 0, Commit(t.keys[n].0, t.start, t.commit), 0);
            && e.code == SUCCESS && KeyWritten(e.row, t, n) && e.row.locks == row.locks - {t.start}
            && GainedRow(row, e.row, t, n)
  {
  }

  lemma SettlingApart(rows: Table, t: Txn, n: nat)
    requires Settling(rows, t, n)
    ensures KeysApart(t, |t.keys|)
  {
  }

  lemma LockedApart(rows: Table, t: Txn)
    requires Locked(rows, t, |t.keys|)
    ensures KeysApart(t, |t.keys|)
  {
  }

  lemma SettleOne(rows: Table, t: Txn, n: nat, row: Row)
    requires n < |t.keys| && Settling(rows, t, n) && KeyWritten(row, t, n) && OneLockEach(rows)
    requires row.locks == At(rows, t.keys[n].0).locks - {t.start}
    ensures Settling(rows[t.keys[n].0 := row], t, n + 1) && OneLockEach(rows[t.keys[n].0 := row])
  {
    var rows' := rows[t.keys[n].0 := row];
    assert row.locks.Keys <= At(rows, t.keys[n].0).locks.Keys;
    SubsetSize(row.locks.Keys, At(rows, t.keys[n].0).locks.Keys);
    forall k ensures |At(rows', k).locks| <= 1 {
      assert |At(rows, k).locks| <= 1;
    }
    forall i | 0 <= i < |t.keys| && i != n ensures t.keys[i].0 != t.keys[n].0 {
    }
  }

  class TransactionCoordinator {
    var clock: nat
    var rows: map<Bytes, Row>            // the cluster's, behind its leaders
    var transactions: map<nat, Txn>
    var commitLock: Option<nat>
    var counter: nat

    constructor ()
      ensures View() == NEW_SYSTEM && Valid()
    {
      clock, rows, transactions, commitLock, counter := 0, map[], map[], None, 0;
      new;
      ReachesSelf(NEW_SYSTEM);
    }

    function View(): System
      reads this
    {
      System(clock, rows, transactions, commitLock)
    }

    ghost predicate Valid()
      reads this
    {
      && commitLock == None && OneLockEach(rows)
      && Reaches(NEW_SYSTEM, View()) && AllSettled(View()) && StartsApart(transactions, clock)
      && (forall id :: id in transactions ==> id <= counter)
      && (forall id :: id in transactions && transactions[id].phase == Pending ==>
            transactions[id].prewritten == {} && transactions[id].checked == {})
    }

    /** A proposal to whichever shard owns the key. */
    method ProposeTo(c: Command, now: int) returns (code: nat)
      requires Keyed(c)
      modifies this`rows
      ensures (View(), code) == Propose(old(View()), c, now)
    {
      var e := ApplyRow(if c.key in rows then rows[c.key] else EMPTY_ROW, 0, c, now);
      rows := rows[c.key := e.row];
      code := e.code;
    }

    method Begin() returns (id: nat, start: nat)
      requires Valid()
      modifies this
      ensures Valid() && id !in old(transactions) && Enabled(old(View()), Transactions.Begin(id))
      ensures View() == Next(old(View()), Transactions.Begin(id)) && start == transactions[id].start == clock
    {
      hide Reaches, Settled, OneLockEach;
      ghost var s := View();
      counter := counter + 1;
      id := counter;
      ReachesNext(NEW_SYSTEM, s, Transactions.Begin(id));
      clock := clock + 1;
      start := clock;
      transactions := transactions[id := Txn(start, [], {}, {}, {}, Pending, 0)];
      SameRowsSettled(s, View(), id);
    }

    /** A write is only remembered; the error is for a transaction that is not pending. */
    method AddWrite(id: nat, key: Bytes, value: Bytes) returns (ok: bool)
      requires Valid()
      modifies this`transactions
      ensures Valid() && ok == Enabled(old(View()), Transactions.AddWrite(id, key, value))
      ensures View() == if ok then Next(old(View()), Transactions.AddWrite(id, key, value)) else old(View())
    {
      hide Reaches, Settled, OneLockEach;
      ok := id in transactions && transactions[id].phase == Pending;
      if ok {
        ghost var s := View();
        ReachesNext(NEW_SYSTEM, s, Transactions.AddWrite(id, key, value));
        StartsStay(transactions, clock, id, transactions[id].(keys := transactions[id].keys + [(key, value)]), clock);
        transactions := transactions[id := transactions[id].(keys := transactions[id].keys + [(key, value)])];
        SameRowsSettled(s, View(), id);
      }
    }

    /** A read at the transaction's start timestamp; `None` when a lock is in the way.  What a
        transaction reads once it has ended, or begun to, is no part of it. */
    method ReadAt(id: nat, key: Bytes) returns (a: Option<Option<Bytes>>)
      requires Valid() && id in transactions
      modifies this`transactions
      ensures Valid()
      ensures var r := Read(At(rows, key), Some(old(transactions[id]).start), 0);
              a == if r.Found? then Some(r.value) else None
      ensures old(transactions[id]).phase == Pending ==>
                && a.Some? == Enabled(old(View()), ReadKey(id, key))
                && View() == (if a.Some? then Next(old(View()), ReadKey(id, key)) else old(View()))
                && (a.Some? ==> (key, a.value) in transactions[id].observed)
      ensures old(transactions[id]).phase != Pending ==> View() == old(View())
    {
      hide Reaches, Settled, OneLockEach, Read;
      var t := transactions[id];
      var r := Read(At(rows, key), Some(t.start), 0);
      if r.Blocked? {
        return None;
      }
      if t.phase == Pending {
        ghost var s := View();
        ReachesNext(NEW_SYSTEM, s, ReadKey(id, key));
        StartsStay(transactions, clock, id, t.(observed := t.observed + {(key, r.value)}), clock);
        transactions := transactions[id := t.(observed := t.observed + {(key, r.value)})];
        SameRowsSettled(s, View(), id);
      }
      a := Some(r.value);
    }

    /** Every key in turn is unlocked. */
    method RollbackAll(id: nat, ghost rows0: Table)
      requires id in transactions && transactions[id].phase == Aborted && StartsApart(transactions, clock)
      requires OneLockEach(rows) && Leftover(rows0, rows, transactions[id], 0)
      modifies this`rows
      ensures Reaches(old(View()), View()) && OneLockEach(rows) && NothingWritten(old(rows), rows)
      ensures Leftover(rows0, rows, transactions[id], |transactions[id].keys|)
      ensures LocksOnly(old(rows), rows, transactions[id].start)
      ensures Freed(rows, transactions[id], |transactions[id].keys|)
    {
      hide Reaches, ApplyRow, OneLockEach, NothingWritten, Leftover, LocksOnly, Freed;
      var t := transactions[id];
      ReachesSelf(View());
      SameWritten(rows);
      LocksOnlySelf(rows, t.start);
      NothingFreed(rows, t);
      var i := 0;
      while i < |t.keys|
        invariant 0 <= i <= |t.keys|
        invariant Reaches(old(View()), View()) && OneLockEach(rows) && NothingWritten(old(rows), rows)
        invariant Leftover(rows0, rows, t, i) && LocksOnly(old(rows), rows, t.start) && Freed(rows, t, i)
      {
        var key := t.keys[i].0;
        ghost var s, before := View(), rows;
        ghost var row := ApplyRow(At(rows, key), 0, Rollback(key, t.start), 0).row;
        RollbackRow(At(rows, key), key, t.start);
        RollbackTable(rows0, rows, t, i, row);
        UnlockedOnly(At(rows, key), row, t.start);
        LocksOnlyRow(old(rows), rows, key, row, t.start);
        FreedMore(rows, t, i, row);
        ReachesNext(old(View()), s, RollbackKey(key, t.start));
        var _ := ProposeTo(Rollback(key, t.start), 0);
        WrittenOn(old(rows), before, rows);
        i := i + 1;
      }
    }

    /** One key is locked, or the transaction is aborted. */
    method PrewriteOne(id: nat, i: nat, now: int, ghost rows0: Table) returns (ok: bool)
      requires id in transactions && transactions[id].phase == Prewriting && i < |transactions[id].keys|
      requires i !in transactions[id].prewritten && OneLockEach(rows)
      requires Locked(rows, transactions[id], i) && Leftover(rows0, rows, transactions[id], 0)
      modifies this`rows, this`transactions, this`commitLock
      ensures Reaches(old(View()), View()) && OneLockEach(rows) && NothingWritten(old(rows), rows)
      ensures ok <==> KeyFree(old(rows), old(transactions[id]), i)
      ensures forall k :: k != old(transactions[id]).keys[i].0 ==> At(rows, k) == At(old(rows), k)
      ensures var t := old(transactions[id]);
              && Leftover(rows0, rows, t, 0) && LocksOnly(old(rows), rows, t.start)
              && (ok ==> Locked(rows, t, i + 1) && ValidTs(t.start) && commitLock == old(commitLock)
                         && transactions == old(transactions)[id := t.(prewritten := t.prewritten + {i})])
              && (!ok ==> transactions == old(transactions)[id := t.(phase := Aborted)]
                          && commitLock == (if old(commitLock) == Some(id) then None else old(commitLock)))
    {
      hide Reaches, ApplyRow, OneLockEach, NothingWritten, Leftover, Locked, Next, Enabled, LocksOnly, NothingAbove,
           SameLocks;
      var t := transactions[id];
      ghost var s := View();
      var c := Prewrite(t.keys[i].0, t.keys[i].1, t.start, t.keys[0].0);
      ReachesSelf(s);
      PrewriteTable(rows0, rows, t, i, now);
      PrewriteIff(At(rows, c.key), 0, c, now);
      PrewriteOnly(At(rows, c.key), c, now);
      LocksOnlySelf(rows, t.start);
      LocksOnlyRow(rows, rows, c.key, ApplyRow(At(rows, c.key), 0, c, now).row, t.start);
      var code := ProposeTo(c, now);
      PrewriteStep(s, id, i, now);
      ReachesNext(s, s, PrewriteKey(id, i, now));
      ok := code == SUCCESS;
      if ok {
        transactions := transactions[id := t.(prewritten := t.prewritten + {i})];
      } else {
        transactions := transactions[id := t.(phase := Aborted)];
        commitLock := if commitLock == Some(id) then None else commitLock;
      }
    }

    /** Every key in turn is locked; at the first refusal everything is given back. */
    method PrewriteAll(id: nat, now: int) returns (ok: bool)
      requires id in transactions && transactions[id].phase == Prewriting && transactions[id].prewritten == {}
      requires OneLockEach(rows) && StartsApart(transactions, clock)
      modifies this
      ensures LocksOnly(old(rows), rows, old(transactions[id]).start)
      ensures Reaches(old(View()), View()) && clock == old(clock) && counter == old(counter)
      ensures OneLockEach(rows) && NothingWritten(old(rows), rows)
      ensures ok <==> CanLock(old(rows), old(transactions[id]))
      ensures var t := old(transactions[id]);
              && id in transactions && transactions == old(transactions)[id := transactions[id]]
              && (ok ==> commitLock == old(commitLock) && Locked(rows, t, |t.keys|) && AllPrewritten(transactions[id])
                         && transactions[id] == t.(prewritten := transactions[id].prewritten)
                         && Leftover(old(rows), rows, t, 0) && (t.keys != [] ==> ValidTs(t.start)))
              && (!ok ==> transactions[id].phase == Aborted && transactions[id].start == t.start
                          && Leftover(old(rows), rows, t, |t.keys|)
                          && commitLock == (if old(commitLock) == Some(id) then None else old(commitLock)))
    {
      hide Reaches, ApplyRow, OneLockEach, NothingWritten, Leftover, Locked, AllPrewritten, Next, Enabled, LocksOnly,
           StartsApart, FreeSoFar, KeyFree, CanLock;
      var t := transactions[id];
      ghost var rows0 := rows;
      NoneYet(rows, t);
      LocksOnlySelf(rows, t.start);
      ReachesSelf(View());
      SameWritten(rows);
      NothingLocked(rows, t);
      assert t == t.(prewritten := Below(0));
      assert transactions == transactions[id := t];
      var i := 0;
      while i < |t.keys|
        invariant 0 <= i <= |t.keys|
        invariant clock == old(clock) && counter == old(counter) && commitLock == old(commitLock)
        invariant transactions == old(transactions)[id := t.(prewritten := Below(i))]
        invariant Reaches(old(View()), View()) && OneLockEach(rows) && NothingWritten(rows0, rows)
        invariant Locked(rows, t, i) && Leftover(rows0, rows, t, 0) && LocksOnly(rows0, rows, t.start)
        invariant FreeSoFar(rows0, rows, t, i)
        invariant i > 0 ==> ValidTs(t.start)
      {
        ghost var s, before := View(), rows;
        SameHeld(rows0, rows, t, transactions[id], i);
        SameFree(rows, t, transactions[id], i);
        var locked := PrewriteOne(id, i, now, rows0);
        SameHeldBack(rows0, rows, t, s.txns[id], i + 1);
        WrittenOn(rows0, before, rows);
        LocksOnlyOn(rows0, before, rows, t.start);
        ReachesOn(old(View()), s, View());
        if locked { FreeMore(rows0, before, t, i, rows); } else { NotFree(rows0, before, t, i); }
        if !locked {
          ghost var aborted, left := View(), rows;
          SameKeys(rows0, rows, t, transactions[id]);
          StartsStay(old(transactions), clock, id, transactions[id], clock);
          assert transactions == old(transactions)[id := transactions[id]];
          RollbackAll(id, rows0);
          LocksOnlyOn(rows0, left, rows, t.start);
          SameKeysBack(rows0, rows, t, transactions[id]);
          WrittenOn(rows0, left, rows);
          ReachesOn(old(View()), aborted, View());
          return false;
        }
        i := i + 1;
      }
      EveryOne(transactions[id]);
      AllFree(rows0, rows, t);
      ok := true;
    }

    /** Whether this key has not been committed since the transaction started. */
    method ValidateOne(id: nat, key: Bytes) returns (ok: bool)
      requires id in transactions && transactions[id].phase == Validating && key in ReadKeys(transactions[id])
      requires commitLock == Some(id)
      modifies this`transactions, this`commitLock
      ensures Reaches(old(View()), View())
      ensures ok <==> KeyFresh(rows, old(transactions[id]), key)
      ensures var t := old(transactions[id]);
              if ok then
                transactions == old(transactions)[id := t.(checked := t.checked + {key})] && commitLock == Some(id)
              else transactions == old(transactions)[id := t.(phase := Aborted)] && commitLock == None
    {
      hide Reaches, ReadKeys, Next, Enabled, RowOf;
      var t := transactions[id];
      FreshNewest(rows, t, key);
      var write := Newest(At(rows, key).writes);
      ghost var s := View();
      ReachesSelf(s);
      ValidateStep(s, id, key);
      ReachesNext(s, s, Validate(id, key));
      ok := write.None? || write.value <= t.start;
      if ok {
        transactions := transactions[id := t.(checked := t.checked + {key})];
      } else {
        transactions := transactions[id := t.(phase := Aborted)];
        commitLock := None;
      }
    }

    /** Whether nothing the transaction read has been committed since it started. */
    method ValidateReadSet(id: nat) returns (ok: bool)
      requires id in transactions && transactions[id].phase == Validating && transactions[id].checked == {}
      requires commitLock == Some(id)
      modifies this`transactions, this`commitLock
      ensures Reaches(old(View()), View()) && id in transactions
      ensures transactions == old(transactions)[id := transactions[id]]
      ensures ok <==> ReadsFresh(rows, old(transactions[id]))
      ensures var t := old(transactions[id]);
              && (ok ==> transactions[id] == t.(checked := ReadKeys(t)) && commitLock == Some(id))
              && (!ok ==> transactions[id].phase == Aborted && transactions[id].keys == t.keys
                          && transactions[id].start == t.start && commitLock == None)
    {
      hide Reaches, ReadKeys, ReadsFresh, Next, Enabled, RowOf, KeyFresh;
      var t := transactions[id];
      ReachesSelf(View());
      var readSet := ReadKeys(t);
      var rest, done := readSet, {};
      assert transactions == transactions[id := t.(checked := done)];
      while rest != {}
        invariant rest + done == readSet && commitLock == Some(id)
        invariant transactions == old(transactions)[id := t.(checked := done)]
        invariant Reaches(old(View()), View())
        invariant forall k :: k in done ==> KeyFresh(rows, t, k)
        decreases |rest|
      {
        var key :| key in rest;
        ghost var s := View();
        SameReads(t, done);
        SameFresh(rows, t, done, key);
        var kept := ValidateOne(id, key);
        ReachesOn(old(View()), s, View());
        if !kept {
          StaleRead(rows, t, key);
          return false;
        }
        done := done + {key};
        rest := rest - {key};
      }
      FreshReads(rows, t, done);
      ok := true;
    }

    /** The secondaries, after the primary. */
    method CommitSecondaries(id: nat)
      requires id in transactions && transactions[id].phase == Committed && transactions[id].keys != []
      requires ValidTs(transactions[id].start) && ValidTs(transactions[id].commit)
      requires Settling(rows, transactions[id], 1) && OneLockEach(rows)
      modifies this`rows
      ensures Reaches(old(View()), View()) && OneLockEach(rows)
      ensures Settling(rows, transactions[id], |transactions[id].keys|)
      ensures LocksOnly(old(rows), rows, transactions[id].start)
      ensures Gained(old(rows), rows, transactions[id], 1, |transactions[id].keys|)
    {
      hide Reaches, ApplyRow, OneLockEach, Settling, LocksOnly, Gained, SameLocks, KeysApart;
      var t := transactions[id];
      ReachesSelf(View());
      SettlingApart(rows, t, 1);
      GainedNone(rows, t, 1);
      LocksOnlySelf(rows, t.start);
      var i := 1;
      while i < |t.keys|
        invariant 1 <= i <= |t.keys|
        invariant Reaches(old(View()), View()) && Settling(rows, t, i) && OneLockEach(rows)
        invariant LocksOnly(old(rows), rows, t.start) && Gained(old(rows), rows, t, 1, i)
      {
        var key := t.keys[i].0;
        ghost var s := View();
        SettlingAt(rows, t, i);
        CommitHeld(At(rows, key), t, i);
        SettleOne(rows, t, i, ApplyRow(At(rows, key), 0, Rows.Command.Commit(key, t.start, t.commit), 0).row);
        ghost var row := ApplyRow(At(rows, key), 0, Rows.Command.Commit(key, t.start, t.commit), 0).row;
        CommitOnly(At(rows, key), Rows.Command.Commit(key, t.start, t.commit));
        LocksOnlyRow(old(rows), rows, key, row, t.start);
        GainedMore(old(rows), rows, t, 1, i, row);
        ReachesNext(old(View()), s, CommitSecondary(id, i));
        var _ := ProposeTo(Rows.Command.Commit(key, t.start, t.commit), 0);
        i := i + 1;
      }
    }

    /** The commit timestamp, the primary's commit, and the secondaries' after it. */
    method CommitDecided(id: nat, ghost rows0: Table) returns (ok: bool)
      requires id in transactions && transactions[id].phase == Validating && commitLock == Some(id)
      requires ReadKeys(transactions[id]) <= transactions[id].checked && transactions[id].keys != []
      requires Locked(rows, transactions[id], |transactions[id].keys|) && ValidTs(transactions[id].start)
      requires OneLockEach(rows) && Leftover(rows0, rows, transactions[id], 0) && StartsApart(transactions, clock)
      modifies this`clock, this`rows, this`transactions, this`commitLock
      ensures Reaches(old(View()), View()) && OneLockEach(rows) && commitLock == None && id in transactions
      ensures transactions == old(transactions)[id := transactions[id]] && clock == old(clock) + 1
      ensures ok <==> ValidTs(old(clock) + 1)
      ensures transactions[id].keys == old(transactions[id]).keys && transactions[id].commit == clock
      ensures transactions[id].start == old(transactions[id]).start
      ensures LocksOnly(old(rows), rows, old(transactions[id]).start)
      ensures ok ==> transactions[id].phase == Committed && Written(rows, transactions[id], |transactions[id].keys|)
                     && Settled(View(), transactions[id])
                     && Gained(old(rows), rows, transactions[id], 0, |transactions[id].keys|)
      ensures !ok ==> transactions[id].phase == Aborted && NothingWritten(old(rows), rows)
                      && Leftover(rows0, rows, old(transactions[id]), |transactions[id].keys|)
    {
      hide Reaches, ApplyRow, OneLockEach, NothingWritten, Leftover, Locked, Next, Enabled, Settling, ReadKeys, Written,
        LocksOnly, StartsApart, Settled, Gained, SameLocks, KeysApart;
      ghost var s0 := View();
      ReachesSelf(s0);
      DrawStep(s0, id);
      ReachesNext(s0, s0, Draw(id));
      clock := clock + 1;
      var t := transactions[id].(phase := Drawn, commit := clock);
      transactions := transactions[id := t];
      ghost var s1, held := View(), rows;
      var key := t.keys[0].0;
      HeldThen(rows, s0.txns[id], t);
      CommitFirst(rows, t);
      PrimaryStep(s1, id);
      ReachesNext(s0, s1, CommitPrimary(id));
      var code := ProposeTo(Rows.Command.Commit(key, t.start, t.commit), 0);
      commitLock := None;
      ok := code == SUCCESS;
      transactions := transactions[id := t.(phase := if ok then Committed else Aborted)];
      ghost var s2, left := View(), rows;
      CommitOnly(At(held, key), Rows.Command.Commit(key, t.start, t.commit));
      LocksOnlySelf(held, t.start);
      LocksOnlyRow(held, held, key, ApplyRow(At(held, key), 0, Rows.Command.Commit(key, t.start, t.commit), 0).row,
                   t.start);
      StartsStay(s0.txns, s0.clock, id, transactions[id], clock);
      assert transactions == s0.txns[id := transactions[id]];
      if ok {
        SettlingSame(rows, t, transactions[id]);
        SettlingApart(rows, transactions[id], 1);
        GainedSame(held, rows, t, transactions[id], 0, 1);
        CommitSecondaries(id);
        GainedOn(held, left, rows, transactions[id], 1, |transactions[id].keys|);
        LocksOnlyOn(held, left, rows, t.start);
        ReachesOn(s0, s2, View());
        AllWritten(rows, transactions[id]);
        AllGone(View(), transactions[id]);
      } else {
        LeftoverSame(rows0, held, s0.txns[id], transactions[id], rows);
        RollbackAll(id, rows0);
        LocksOnlyOn(held, left, rows, t.start);
        ReachesOn(s0, s2, View());
        WrittenSame(held, left, rows);
        SameKeysBack(rows0, rows, s0.txns[id], transactions[id]);
      }
    }

    /** Validation and commit, under the commit lock. */
    method CommitLocked(id: nat, ghost rows0: Table) returns (ok: bool)
      requires id in transactions && transactions[id].phase == Prewriting && AllPrewritten(transactions[id])
      requires commitLock == None && transactions[id].checked == {} && transactions[id].keys != []
      requires Locked(rows, transactions[id], |transactions[id].keys|) && ValidTs(transactions[id].start)
      requires OneLockEach(rows) && Leftover(rows0, rows, transactions[id], 0) && StartsApart(transactions, clock)
      requires AllSettled(View())
      modifies this`clock, this`rows, this`transactions, this`commitLock
      ensures Reaches(old(View()), View()) && OneLockEach(rows) && commitLock == None && id in transactions
      ensures transactions == old(transactions)[id := transactions[id]]
      ensures clock == old(clock) + if ReadsFresh(old(rows), old(transactions[id])) then 1 else 0
      ensures ok <==> ReadsFresh(old(rows), old(transactions[id])) && ValidTs(old(clock) + 1)
      ensures transactions[id].keys == old(transactions[id]).keys
      ensures transactions[id].start == old(transactions[id]).start
      ensures LocksOnly(old(rows), rows, old(transactions[id]).start)
      ensures ok ==> transactions[id].phase == Committed && Written(rows, transactions[id], |transactions[id].keys|)
                     && Settled(View(), transactions[id]) && transactions[id].commit == clock
                     && Gained(old(rows), rows, transactions[id], 0, |transactions[id].keys|)
      ensures !ok ==> transactions[id].phase == Aborted && NothingWritten(old(rows), rows)
                      && Leftover(rows0, rows, old(transactions[id]), |transactions[id].keys|)
    {
      hide Reaches, ApplyRow, OneLockEach, NothingWritten, Leftover, Locked, Next, Enabled, ReadKeys, Written,
           ReadsFresh,
        LocksOnly, StartsApart, Settled, AllSettled, Gained;
      ghost var s0 := View();
      ghost var t0 := transactions[id];
      ReachesSelf(s0);
      EnterStep(s0, id);
      ReachesNext(s0, s0, Enter(id));
      transactions := transactions[id := transactions[id].(phase := Validating)];
      commitLock := Some(id);
      ghost var s1 := View();
      FreshBoth(rows, t0, transactions[id]);
      ok := ValidateReadSet(id);
      ghost var s2 := View();
      ReachesOn(s0, s1, s2);
      StartsStay(s0.txns, clock, id, transactions[id], clock);
      assert transactions == s0.txns[id := transactions[id]];
      if ok {
        HeldThen(rows, t0, transactions[id]);
        LeftoverThen(rows0, rows, t0, transactions[id]);
        ReadsChecked(s1.txns[id]);
        ok := CommitDecided(id, rows0);
        ReachesOn(s0, s2, View());
        if !ok { SameKeysBack(rows0, rows, t0, s2.txns[id]); }
      } else {
        LeftoverThen(rows0, rows, t0, transactions[id]);
        RollbackAll(id, rows0);
        ReachesOn(s0, s2, View());
        SameKeysBack(rows0, rows, t0, transactions[id]);
      }
    }

    /** Gives a transaction up, unless it has committed: none of its keys is locked by it, and none of
        its writes is published. */
    method RollbackTransaction(id: nat) returns (ok: bool)
      requires Valid()
      modifies this
      ensures Valid() && Reaches(old(View()), View())
      ensures ok <==> id in old(transactions) && old(transactions[id]).phase != Committed
      ensures NothingWritten(old(rows), rows)
      ensures ok ==> id in transactions && transactions[id] == old(transactions[id]).(phase := Aborted)
      ensures ok && old(transactions[id]).phase != Pending ==> Freed(rows, transactions[id], |transactions[id].keys|)
      ensures !ok ==> View() == old(View())
    {
      hide Reaches, OneLockEach, NothingWritten, Leftover, LocksOnly, StartsApart, Settled, AllSettled, OthersSettled,
           Freed,
        Enabled, Next;
      SameWritten(rows);
      ReachesSelf(View());
      ok := id in transactions && transactions[id].phase != Committed;
      if ok {
        ghost var s0 := View();
        var t := transactions[id];
        GiveUpStep(s0, id);
        ReachesNext(s0, s0, Abort(id));
        transactions := transactions[id := t.(phase := Aborted)];
        ghost var s1 := View();
        StartsStay(s0.txns, clock, id, transactions[id], clock);
        SameRowsSettled(s0, s1, id);
        if t.phase != Pending {
          NothingLocked(rows, transactions[id]);
          AllAndOthers(s1, id);
          RollbackAll(id, rows);
          ReachesOn(s0, s1, View());
          OthersStaySettled(s1, View(), id, t.start);
          AllAndOthers(View(), id);
        }
        ReachesOn(NEW_SYSTEM, s0, View());
      }
    }

    /** Locks everything, validates what was read, and commits the primary and then the rest: all
        of the transaction's writes are published, or none is and no lock of its is left. */
    method Commit(id: nat, now: int) returns (ok: bool, ts: nat)
      requires Valid()
      modifies this
      ensures Valid() && Reaches(old(View()), View())
      ensures ok <==> id in old(transactions) && old(transactions[id]).phase == Pending
                      && CanCommit(old(rows), old(transactions[id]), old(clock))
      ensures if id in old(transactions) && old(transactions[id]).phase == Pending then
                && id in transactions && transactions == old(transactions)[id := transactions[id]]
                && transactions[id].phase == (if ok then Committed else Aborted)
              else View() == old(View())
      ensures ok ==> ts == transactions[id].commit
      ensures ok ==> ts == if old(transactions[id]).keys == [] then old(transactions[id]).start else old(clock) + 1
      ensures ok ==> transactions[id].keys == old(transactions[id]).keys
      ensures ok ==> Gained(old(rows), rows, transactions[id], 0, |transactions[id].keys|)
      ensures id in old(transactions) ==> LocksOnly(old(rows), rows, old(transactions[id]).start)
      ensures ok && transactions[id].keys != [] ==>
                ReadsFresh(old(rows), old(transactions[id])) && Written(rows, transactions[id], |transactions[id].keys|)
      ensures !ok ==> NothingWritten(old(rows), rows)
      ensures !ok && id in old(transactions) ==>
                Leftover(old(rows), rows, old(transactions[id]), |old(transactions[id]).keys|)
    {
      hide Reaches, ApplyRow, OneLockEach, NothingWritten, Leftover, Locked, AllPrewritten, Next, Enabled, ReadsFresh,
        ReadKeys, Written, LocksOnly, StartsApart, Settled, AllSettled, OthersSettled, Gained, CanLock;
      ok, ts := false, 0;
      ReachesSelf(View());
      SameWritten(rows);
      if id !in transactions {
        return;
      }
      var t := transactions[id];
      NothingLeft(rows, t);
      LocksOnlySelf(rows, t.start);
      if t.phase != Pending {
        return;
      }
      ghost var s0 := View();
      StartStep(s0, id);
      ReachesNext(s0, s0, StartCommit(id));
      if t.keys == [] {
        transactions := transactions[id := t.(phase := Committed, commit := t.start)];
        StartsStay(s0.txns, clock, id, transactions[id], clock);
        SameRowsSettled(s0, View(), id);
        ReachesOn(NEW_SYSTEM, s0, View());
        GainedNone(rows, transactions[id], 0);
        return true, t.start;
      }
      transactions := transactions[id := t.(phase := Prewriting)];
      ghost var s1 := View();
      StartsStay(s0.txns, clock, id, transactions[id], clock);
      SameRowsSettled(s0, s1, id);
      AllAndOthers(s1, id);
      CanLockSame(rows, t, transactions[id]);
      ok := PrewriteAll(id, now);
      ghost var s2 := View();
      ReachesOn(s0, s1, s2);
      ReachesOn(NEW_SYSTEM, s0, s2);
      OthersStaySettled(s1, s2, id, t.start);
      AllAndOthers(s2, id);
      assert s2.txns == s1.txns[id := s2.txns[id]];
      StartsStay(s1.txns, s1.clock, id, s2.txns[id], clock);
      if !ok {
        SameKeysBack(s0.rows, rows, t, s1.txns[id]);
        return;
      }
      HeldThen(rows, s1.txns[id], transactions[id]);
      LeftoverThen(s0.rows, rows, s1.txns[id], transactions[id]);
      ok := CommitLocked(id, s0.rows);
      LocksOnlyOn(s0.rows, s2.rows, rows, t.start);
      ReachesOn(s0, s2, View());
      ReachesOn(NEW_SYSTEM, s0, View());
      AllAndOthers(s2, id);
      OthersStaySettled(s2, View(), id, t.start);
      AllAndOthers(View(), id);
      StartsStay(s2.txns, s2.clock, id, transactions[id], clock);
      ts := transactions[id].commit;
      FreshBefore(s0.rows, s2.rows, t, s2.txns[id]);
      if ok {
        GainedAfter(s0.rows, s2.rows, rows, transactions[id], |transactions[id].keys|);
      } else {
        WrittenOn(s0.rows, s2.rows, rows);
        SameKeysBack(s0.rows, rows, t, s2.txns[id]);
      }
    }
  }

  lemma NothingLeft(rows: Table, t: Txn)
    ensures Leftover(rows, rows, t, |t.keys|)
  {
  }

  lemma StartStep(s: System, id: nat)
    requires id in s.txns && s.txns[id].phase == Pending
    ensures Enabled(s, StartCommit(id))
    ensures var t := s.txns[id];
            Next(s, StartCommit(id)) ==
            SetTxn(s, id, if t.keys == [] then t.(phase := Committed, commit := t.start) else t.(phase := Prewriting))
  {
  }

  lemma GiveUpStep(s: System, id: nat)
    requires id in s.txns && s.txns[id].phase != Committed && s.holder == None
    ensures Enabled(s, Abort(id)) && Next(s, Abort(id)) == SetTxn(s, id, s.txns[id].(phase := Aborted))
  {
  }

  lemma EnterStep(s: System, id: nat)
    requires id in s.txns && s.txns[id].phase == Prewriting && AllPrewritten(s.txns[id]) && s.holder == None
    ensures Enabled(s, Enter(id))
    ensures Next(s, Enter(id)) == SetTxn(s, id, s.txns[id].(phase := Validating)).(holder := Some(id))
  {
  }

  lemma DrawStep(s: System, id: nat)
    requires id in s.txns && s.txns[id].phase == Validating && ReadKeys(s.txns[id]) <= s.txns[id].checked
    ensures Enabled(s, Draw(id))
    ensures Next(s, Draw(id)) ==
            SetTxn(s.(clock := s.clock + 1), id, s.txns[id].(phase := Drawn, commit := s.clock + 1))
  {
  }

  lemma PrimaryStep(s: System, id: nat)
    requires id in s.txns && s.txns[id].phase == Drawn && s.txns[id].keys != [] && s.holder == Some(id)
    ensures Enabled(s, CommitPrimary(id))
    ensures var t := s.txns[id];
            var (s', code) := Propose(s, Rows.Command.Commit(t.keys[0].0, t.start, t.commit), 0);
            Next(s, CommitPrimary(id)) ==
            SetTxn(s', id, t.(phase := if code == SUCCESS then Committed else Aborted)).(holder := None)
  {
  }

  /** The primary's commit on a table of rows: it goes through, unless its timestamp has run out. */
  lemma CommitFirst(rows: Table, t: Txn)
    requires t.keys != [] && Locked(rows, t, |t.keys|) && ValidTs(t.start) && OneLockEach(rows)
    ensures var c := Rows.Command.Commit(t.keys[0].0, t.start, t.commit);
            var e := ApplyRow(At(rows, t.keys[0].0), 0, c, 0);
            var rows' := rows[t.keys[0].0 := e.row];
            && OneLockEach(rows')
            && (e.code == SUCCESS <==> ValidTs(t.commit))
            && (e.code == SUCCESS ==> Settling(rows', t, 1) && Gained(rows, rows', t, 0, 1))
            && (e.code != SUCCESS ==> e.row == At(rows, t.keys[0].0))
  {
    var c := Rows.Command.Commit(t.keys[0].0, t.start, t.commit);
    CommitEffect(At(rows, t.keys[0].0), c);
    LockedApart(rows, t);
    assert KeyHeld(At(rows, t.keys[0].0), t, 0);
    if ValidTs(t.commit) { CommitHeld(At(rows, t.keys[0].0), t, 0); }
    if ApplyRow(At(rows, t.keys[0].0), 0, c, 0).code == SUCCESS {
      CommitHeld(At(rows, t.keys[0].0), t, 0);
      hide ApplyRow, OneLockEach;
      assert Settling(rows, t, 0);
      SettleOne(rows, t, 0, ApplyRow(At(rows, t.keys[0].0), 0, c, 0).row);
      GainedNone(rows, t, 0);
      GainedMore(rows, rows, t, 0, 0, ApplyRow(At(rows, t.keys[0].0), 0, c, 0).row);
    } else {
      assert |At(rows, t.keys[0].0).locks| <= 1;
      PutRow(rows, t.keys[0].0, At(rows, t.keys[0].0));
    }
  }

  lemma CommitOnly(row: Row, c: Command)
    requires c.Commit?
    ensures c.startTs >= 0 ==> SameLocks(row.locks, ApplyRow(row, 0, c, 0).row.locks, c.startTs as nat)
  {
  }

  lemma AllGone(s: System, t: Txn)
    requires Settling(s.rows, t, |t.keys|)
    ensures Settled(s, t)
  {
  }

  lemma HeldThen(rows: Table, t: Txn, t': Txn)
    requires Locked(rows, t, |t.keys|) && t'.keys == t.keys && t'.start == t.start
    ensures Locked(rows, t', |t'.keys|)
  {
    forall i | 0 <= i < |t.keys| ensures KeyHeld(At(rows, t'.keys[i].0), t', i) {
      assert KeyHeld(At(rows, t.keys[i].0), t, i);
    }
  }

  lemma SettlingSame(rows: Table, t: Txn, t': Txn)
    requires Settling(rows, t, 1) && t'.keys == t.keys && t'.start == t.start && t'.commit == t.commit
    ensures Settling(rows, t', 1)
  {
    forall i | 0 <= i < |t.keys| && i >= 1 ensures KeyHeld(At(rows, t'.keys[i].0), t', i) {
      assert KeyHeld(At(rows, t.keys[i].0), t, i);
    }
    assert KeyWritten(At(rows, t.keys[0].0), t, 0);
  }

  lemma AllWritten(rows: Table, t: Txn)
    requires Settling(rows, t, |t.keys|)
    ensures Written(rows, t, |t.keys|)
  {
  }

  lemma LeftoverThen(rows0: Table, rows: Table, t: Txn, t': Txn)
    requires Leftover(rows0, rows, t, 0) && t'.keys == t.keys && t'.start == t.start
    ensures Leftover(rows0, rows, t', 0)
  {
    SameKeys(rows0, rows, t, t');
  }

  lemma LeftoverSame(rows0: Table, rows: Table, t: Txn, t': Txn, rows': Table)
    requires Leftover(rows0, rows, t, 0) && t'.keys == t.keys && t'.start == t.start && t.keys != []
    requires rows' == rows[t.keys[0].0 := At(rows, t.keys[0].0)]
    ensures Leftover(rows0, rows', t', 0)
  {
    assert forall k :: At(rows', k) == At(rows, k);
    SameKeys(rows0, rows, t, t');
  }

  lemma WrittenSame(a: Table, b: Table, c: Table)
    requires NothingWritten(b, c) && forall k :: At(b, k) == At(a, k)
    ensures NothingWritten(a, c)
  {
  }

  lemma ReadsChecked(t: Txn)
    ensures ReadKeys(t.(checked := ReadKeys(t))) == ReadKeys(t)
  {
  }

  lemma FreshBoth(rows: Table, t: Txn, t': Txn)
    requires t'.observed == t.observed && t'.start == t.start
    ensures ReadsFresh(rows, t) <==> ReadsFresh(rows, t')
  {
    assert ReadKeys(t) == ReadKeys(t');
    assert forall k :: KeyFresh(rows, t, k) == KeyFresh(rows, t', k);
  }

  lemma FreshBefore(rows: Table, rows': Table, t: Txn, t': Txn)
    requires NothingWritten(rows, rows') && t'.observed == t.observed && t'.start == t.start
    ensures ReadsFresh(rows, t) <==> ReadsFresh(rows', t')
  {
    assert ReadKeys(t) == ReadKeys(t');
    assert forall k :: KeyFresh(rows, t, k) <==> KeyFresh(rows', t', k);
  }

  /** Nothing has been committed to the key since the transaction started. */
  ghost predicate KeyFresh(rows: Table, t: Txn, key: Bytes) {
    forall u :: u in At(rows, key).writes ==> u <= t.start
  }

  ghost predicate ReadsFresh(rows: Table, t: Txn) {
    forall k :: k in ReadKeys(t) ==> KeyFresh(rows, t, k)
  }

  lemma FreshNewest(rows: Table, t: Txn, key: Bytes)
    ensures var write := Newest(At(rows, key).writes); KeyFresh(rows, t, key) <==> write.None? || write.value <= t.start
  {
    var write := Newest(At(rows, key).writes);
    if write.Some? { assert write.value in At(rows, key).writes; }
  }

  lemma ValidateStep(s: System, id: nat, key: Bytes)
    requires id in s.txns && s.txns[id].phase == Validating && key in ReadKeys(s.txns[id])
    ensures Enabled(s, Validate(id, key))
    ensures var t := s.txns[id];
            Next(s, Validate(id, key)) ==
            if KeyFresh(s.rows, t, key) then SetTxn(s, id, t.(checked := t.checked + {key})) else Aborting(s, id)
  {
    FreshNewest(s.rows, s.txns[id], key);
  }

  lemma PrewriteStep(s: System, id: nat, i: nat, now: int)
    requires id in s.txns && s.txns[id].phase == Prewriting && i < |s.txns[id].keys| && i !in s.txns[id].prewritten
    ensures Enabled(s, PrewriteKey(id, i, now))
    ensures var t := s.txns[id];
            var (s', code) := Propose(s, Prewrite(t.keys[i].0, t.keys[i].1, t.start, t.keys[0].0), now);
            Next(s, PrewriteKey(id, i, now)) ==
            if code == SUCCESS then SetTxn(s', id, t.(prewritten := t.prewritten + {i})) else Aborting(s', id)
  {
  }

  lemma SameReads(t: Txn, checked: set<Bytes>)
    ensures ReadKeys(t.(checked := checked)) == ReadKeys(t)
  {
  }

  lemma SameFresh(rows: Table, t: Txn, checked: set<Bytes>, key: Bytes)
    ensures KeyFresh(rows, t.(checked := checked), key) == KeyFresh(rows, t, key)
  {
  }

  lemma StaleRead(rows: Table, t: Txn, key: Bytes)
    requires key in ReadKeys(t) && !KeyFresh(rows, t, key)
    ensures !ReadsFresh(rows, t)
  {
  }

  lemma FreshReads(rows: Table, t: Txn, keys: set<Bytes>)
    requires keys == ReadKeys(t) && forall k :: k in keys ==> KeyFresh(rows, t, k)
    ensures ReadsFresh(rows, t)
  {
  }

  lemma SettlingAt(rows: Table, t: Txn, n: nat)
    requires Settling(rows, t, n) && n < |t.keys|
    ensures ValidKey(t.keys[n].0) && KeyHeld(At(rows, t.keys[n].0), t, n)
  {
  }

  function Below(n: nat): (r: set<nat>)
    ensures forall j: nat :: j in r <==> j < n
  {
    if n == 0 then {} else Below(n - 1) + {n - 1}
  }

  lemma SameWritten(rows: Table)
    ensures NothingWritten(rows, rows)
  {
  }

  lemma NothingLocked(rows: Table, t: Txn)
    ensures Locked(rows, t, 0) && Leftover(rows, rows, t, 0)
  {
  }

  lemma EveryOne(t: Txn)
    requires t.prewritten == Below(|t.keys|)
    ensures AllPrewritten(t)
  {
  }

  lemma SameKeys(rows0: Table, rows: Table, t: Txn, t': Txn)
    requires Leftover(rows0, rows, t, 0) && t'.keys == t.keys && t'.start == t.start
    ensures Leftover(rows0, rows, t', 0)
  {
    forall k | AmongKeys(t, 0, k) ensures AmongKeys(t', 0, k) {
    }
  }

  lemma SameHeld(rows0: Table, rows: Table, t: Txn, t': Txn, n: nat)
    requires Locked(rows, t, n) && Leftover(rows0, rows, t, 0) && t'.keys == t.keys && t'.start == t.start
    ensures Locked(rows, t', n) && Leftover(rows0, rows, t', 0)
  {
    SameKeys(rows0, rows, t, t');
    forall i | 0 <= i < n ensures KeyHeld(At(rows, t'.keys[i].0), t', i) {
      assert KeyHeld(At(rows, t.keys[i].0), t, i);
    }
  }

  lemma SameHeldBack(rows0: Table, rows: Table, t: Txn, t': Txn, n: nat)
    requires Leftover(rows0, rows, t', 0) && t'.keys == t.keys && t'.start == t.start
    ensures Leftover(rows0, rows, t, 0) && (Locked(rows, t', n) ==> Locked(rows, t, n))
  {
    SameKeys(rows0, rows, t', t);
    if Locked(rows, t', n) { SameHeld(rows0, rows, t', t, n); }
  }

  lemma SameKeysBack(rows0: Table, rows: Table, t: Txn, t': Txn)
    requires Leftover(rows0, rows, t', |t'.keys|) && t'.keys == t.keys && t'.start == t.start
    ensures Leftover(rows0, rows, t, |t.keys|)
  {
  }
}
