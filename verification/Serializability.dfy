/**
  Every history of committed transactions is the history of running them one at a time, in the
  order of their commit timestamps, those that only read at their start timestamps.
*/
module Serializability {
  import opened Common
  import opened Rows
  import opened Transactions
  import opened Snapshots

  /** It has written something, for good. */
  predicate Wrote(t: Txn) { t.keys != [] && t.phase == Committed }

  ghost predicate Settled(s: System, t: Txn) {
    forall i :: 0 <= i < |t.keys| ==> t.start !in RowOf(s, t.keys[i].0).locks
  }

  ghost predicate AllSettled(s: System) {
    forall u :: u in s.txns && Wrote(s.txns[u]) ==> Settled(s, s.txns[u])
  }

  /** On its way to a commit, with its primary's lock taken and gone: the commit can only fail. */
  predicate Doomed(s: System, t: Txn) {
    && (t.phase == Prewriting || InSection(t)) && t.keys != [] && 0 in t.prewritten
    && t.start !in RowOf(s, t.keys[0].0).locks
  }

  /** It writes its primary key once. */
  predicate SolePrimary(t: Txn) {
    t.keys != [] && forall i :: 0 < i < |t.keys| ==> t.keys[i].0 != t.keys[0].0
  }

  /** A lock of `t` may be taken from it: `t` has ended, or can no longer commit, or this is the lock
      that decides. */
  ghost predicate MayRollBack(s: System, t: Txn, key: Bytes) {
    t.phase == Aborted || Doomed(s, t) || (t.phase != Committed && SolePrimary(t) && key == t.keys[0].0)
  }

  /** The premises: a lock is rolled back only where that cannot leave half a transaction, and what
      has committed is settled before the next validation begins. */
  ghost predicate Orderly(s: System, step: Step) {
    match step
    case RollbackKey(key, start) =>
      forall p :: p in s.txns && s.txns[p].start == start ==> MayRollBack(s, s.txns[p], key)
    case Enter(_) => AllSettled(s)
    case _ => true
  }

  ghost predicate OrderlyRun(states: seq<System>, steps: seq<Step>) {
    Run(states, steps) && forall i :: 0 <= i < |steps| ==> Orderly(states[i], steps[i])
  }

  // ---- the invariant --------------------------------------------------------------

  ghost predicate KeyHeld(row: Row, t: Txn, i: nat)
    requires i < |t.keys|
  {
    t.start in row.locks && row.locks[t.start].value == t.keys[i].1
  }

  ghost predicate KeyWritten(row: Row, t: Txn, i: nat)
    requires i < |t.keys|
  {
    t.commit in row.versions && row.versions[t.commit] == Value(t.keys[i].1) && t.commit in row.writes
  }

  ghost predicate KeySound(s: System, t: Txn, i: nat) {
    && i < |t.keys|
    && var row := RowOf(s, t.keys[i].0);
    && (t.start in row.locks ==> KeyHeld(row, t, i))
    && (t.start in row.locks || (t.phase == Committed && KeyWritten(row, t, i)))
  }

  ghost predicate KeysDistinct(t: Txn) {
    forall i, j :: i in t.prewritten && j in t.prewritten && i < |t.keys| && j < |t.keys| && i != j ==>
      t.keys[i].0 != t.keys[j].0
  }

  /** What a transaction has prewritten it still holds, or has written. */
  ghost predicate TxnSound(s: System, t: Txn) {
    && (t.phase == Pending ==> t.prewritten == {})
    && (t.phase == Pending || t.phase == Prewriting ==> t.checked == {})
    && (Doomed(s, t) ==> SolePrimary(t))
    && (t.phase != Aborted && t.phase != Pending && !Doomed(s, t) ==>
          && KeysDistinct(t)
          && forall i :: i in t.prewritten ==> KeySound(s, t, i))
    && (t.phase == Prewriting ==> t.keys != [])
    && (t.phase == Committed && t.keys == [] ==> t.commit == t.start)
    && (t.phase == Validating || t.phase == Drawn || Wrote(t) ==> t.keys != [] && AllPrewritten(t))
    && (Wrote(t) ==> KeyWritten(RowOf(s, t.keys[0].0), t, 0))
  }

  ghost predicate WriterOf(s: System, key: Bytes, ts: nat, cell: Cell, u: nat) {
    && u in s.txns && Wrote(s.txns[u]) && s.txns[u].commit == ts
    && exists i :: 0 <= i < |s.txns[u].keys| && s.txns[u].keys[i].0 == key && cell == Value(s.txns[u].keys[i].1)
  }

  /** Every version, and every write record, is a committed transaction's. */
  ghost predicate RowSound(s: System, key: Bytes) {
    && RowOf(s, key).writes.Keys == RowOf(s, key).versions.Keys
    && forall ts :: ts in RowOf(s, key).versions ==>
         exists u :: WriterOf(s, key, ts, RowOf(s, key).versions[ts], u)
  }

  predicate InSection(t: Txn) { t.phase == Validating || t.phase == Drawn }

  /** What is checked has not been written since the transaction started. */
  ghost predicate CheckedFresh(s: System, h: Txn) {
    forall k :: k in h.checked ==> forall ts :: ts in RowOf(s, k).writes ==> ts <= h.start
  }

  ghost predicate AllBefore(s: System, commit: nat) {
    forall u :: u in s.txns && Wrote(s.txns[u]) ==> s.txns[u].commit < commit
  }

  /** Whoever holds the commit lock sees every commit there has been. */
  ghost predicate HolderSound(s: System, h: Txn) {
    && AllSettled(s) && InSection(h) && CheckedFresh(s, h)
    && (h.phase == Drawn ==> ReadKeys(h) <= h.checked && AllBefore(s, h.commit))
  }

  ghost predicate SectionSound(s: System) {
    && (forall p :: p in s.txns && InSection(s.txns[p]) ==> s.holder == Some(p))
    && (s.holder.Some? ==> s.holder.value in s.txns && HolderSound(s, s.txns[s.holder.value]))
  }

  predicate Writes(t: Txn, key: Bytes) { exists i :: 0 <= i < |t.keys| && t.keys[i].0 == key }

  /** Nothing a committed transaction read was written between its start and its commit. */
  ghost predicate Undisturbed(t: Txn, u: Txn) {
    forall o :: o in t.observed && Writes(u, o.0) && u.commit < t.commit ==> u.commit < t.start
  }

  ghost predicate OrderSound(s: System) {
    forall p, u :: p in s.txns && u in s.txns && p != u && Wrote(s.txns[p]) && Wrote(s.txns[u]) ==>
      Undisturbed(s.txns[p], s.txns[u])
  }

  ghost predicate SerialInv(s: System) {
    && SnapshotInv(s)
    && (forall p :: p in s.txns ==> TxnSound(s, s.txns[p]))
    && (forall k :: RowSound(s, k))
    && SectionSound(s)
    && OrderSound(s)
  }

  // ---- steps that leave every row alone -------------------------------------------

  lemma WritersStay(s: System, s': System, k: Bytes)
    requires RowSound(s, k) && RowOf(s', k) == RowOf(s, k)
    requires forall u :: u in s.txns && Wrote(s.txns[u]) ==> u in s'.txns && s'.txns[u] == s.txns[u]
    ensures RowSound(s', k)
  {
    forall ts | ts in RowOf(s', k).versions ensures exists u :: WriterOf(s', k, ts, RowOf(s', k).versions[ts], u) {
      var u :| WriterOf(s, k, ts, RowOf(s, k).versions[ts], u);
      assert WriterOf(s', k, ts, RowOf(s', k).versions[ts], u);
    }
  }

  /** Only the transaction `id` changed, it has not committed by it, and no row changed. */
  lemma QuietKeeps(s: System, s': System, id: nat)
    requires SerialInv(s) && SnapshotInv(s') && s'.rows == s.rows
    requires id in s'.txns
    requires forall q :: q != id ==> (q in s'.txns <==> q in s.txns) && (q in s.txns ==> s'.txns[q] == s.txns[q])
    requires !Wrote(s'.txns[id]) && (id in s.txns ==> !Wrote(s.txns[id]))
    requires TxnSound(s', s'.txns[id]) && SectionSound(s')
    ensures SerialInv(s')
  {
    hide SnapshotInv, SectionSound, RowSound, Undisturbed;
    forall k ensures RowSound(s', k) {
      WritersStay(s, s', k);
    }
    forall p | p in s'.txns && p != id ensures TxnSound(s', s'.txns[p]) {
      assert TxnSound(s, s.txns[p]);
      SameRowsSound(s, s', s.txns[p]);
    }
  }

  lemma SameRowsSound(s: System, s': System, t: Txn)
    requires TxnSound(s, t) && s'.rows == s.rows
    ensures TxnSound(s', t)
  {
    forall i | i in t.prewritten && t.phase != Aborted && t.phase != Pending && !Doomed(s', t)
      ensures KeySound(s', t, i)
    {
      assert KeySound(s, t, i);
    }
  }

  /** A transaction outside the section moved, and the section did not. */
  lemma SectionQuiet(s: System, s': System, id: nat)
    requires SectionSound(s) && s'.rows == s.rows && s'.holder == s.holder && s.holder != Some(id)
    requires id in s'.txns && !InSection(s'.txns[id]) && !Wrote(s'.txns[id])
    requires forall q :: q != id ==> (q in s'.txns <==> q in s.txns) && (q in s.txns ==> s'.txns[q] == s.txns[q])
    ensures SectionSound(s')
  {
    hide ReadKeys, AllSettled;
    if s.holder.Some? {
      SettledStay(s, s', id);
      FreshStays(s, s', s.txns[s.holder.value]);
    }
  }

  lemma FreshStays(s: System, s': System, h: Txn)
    requires CheckedFresh(s, h) && s'.rows == s.rows
    ensures CheckedFresh(s', h)
  {
    forall k | k in h.checked ensures forall ts :: ts in RowOf(s', k).writes ==> ts <= h.start {
      assert RowOf(s', k) == RowOf(s, k);
    }
  }

  lemma NotHolding(s: System, id: nat)
    requires SectionSound(s) && id in s.txns && !InSection(s.txns[id])
    ensures s.holder != Some(id)
  {
  }

  lemma BeginSerial(s: System, id: nat)
    requires SerialInv(s) && Enabled(s, Begin(id))
    ensures SerialInv(Next(s, Begin(id)))
  {
    hide SnapshotInv, SectionSound, OrderSound, RowSound;
    Snapshots.NextKeeps(s, Begin(id));
    var s' := Next(s, Begin(id));
    HolderIn(s);
    SectionQuiet(s, s', id);
    QuietKeeps(s, s', id);
  }

  lemma HolderIn(s: System)
    requires SectionSound(s)
    ensures s.holder.Some? ==> s.holder.value in s.txns
  {
  }

  /** A pending transaction reads, writes to itself, or starts to commit. */
  lemma PendingSerial(s: System, step: Step, id: nat)
    requires SerialInv(s) && Enabled(s, step) && id in s.txns && s.txns[id].phase == Pending
    requires (step.AddWrite? || step.ReadKey? || step.StartCommit?) && step.id == id
    ensures SerialInv(Next(s, step))
  {
    hide SnapshotInv, SectionSound, OrderSound, RowSound, Read;
    Snapshots.NextKeeps(s, step);
    var s' := Next(s, step);
    assert TxnSound(s, s.txns[id]);
    NotHolding(s, id);
    SectionQuiet(s, s', id);
    QuietKeeps(s, s', id);
  }

  lemma EnterSerial(s: System, id: nat)
    requires SerialInv(s) && Enabled(s, Enter(id)) && AllSettled(s)
    ensures SerialInv(Next(s, Enter(id)))
  {
    hide SnapshotInv, OrderSound, RowSound;
    Snapshots.NextKeeps(s, Enter(id));
    var s' := Next(s, Enter(id));
    var t := s.txns[id];
    assert TxnSound(s, t);
    EnterTxn(s, s', t);
    SettledStay(s, s', id);
    QuietKeeps(s, s', id);
  }

  lemma EnterTxn(s: System, s': System, t: Txn)
    requires TxnSound(s, t) && s'.rows == s.rows && t.phase == Prewriting && AllPrewritten(t)
    ensures TxnSound(s', t.(phase := Validating))
  {
    var t' := t.(phase := Validating);
    forall i | i in t'.prewritten && !Doomed(s', t') ensures KeySound(s', t', i) {
      assert KeySound(s, t, i);
    }
  }

  /** What was settled is settled when no row changes and nobody new has committed. */
  lemma SettledStay(s: System, s': System, id: nat)
    requires AllSettled(s) && s'.rows == s.rows && id in s'.txns && !Wrote(s'.txns[id])
    requires forall q :: q != id ==> (q in s'.txns <==> q in s.txns) && (q in s.txns ==> s'.txns[q] == s.txns[q])
    ensures AllSettled(s')
  {
    forall u | u in s'.txns && Wrote(s'.txns[u]) ensures Settled(s', s'.txns[u]) {
      assert Settled(s, s.txns[u]);
    }
  }

  lemma ValidatePasses(s: System, id: nat, key: Bytes)
    requires SerialInv(s) && Enabled(s, Validate(id, key))
    requires var write := Newest(RowOf(s, key).writes); write.None? || write.value <= s.txns[id].start
    ensures SerialInv(Next(s, Validate(id, key)))
  {
    hide SnapshotInv, OrderSound, RowSound, AllPrewritten, KeySound, KeysDistinct, AllSettled;
    Snapshots.NextKeeps(s, Validate(id, key));
    var s' := Next(s, Validate(id, key));
    var t := s.txns[id];
    assert TxnSound(s, t);
    CheckedSound(s, s', t, s'.txns[id]);
    SettledStay(s, s', id);
    CheckOne(s, s', t, key);
    QuietKeeps(s, s', id);
  }

  lemma CheckOne(s: System, s': System, h: Txn, key: Bytes)
    requires CheckedFresh(s, h) && s'.rows == s.rows
    requires var write := Newest(RowOf(s, key).writes); write.None? || write.value <= h.start
    ensures CheckedFresh(s', h.(checked := h.checked + {key}))
  {
    FreshStays(s, s', h);
  }

  lemma CheckedSound(s: System, s': System, t: Txn, t': Txn)
    requires TxnSound(s, t) && s'.rows == s.rows && InSection(t)
    requires t' == t.(phase := t'.phase, checked := t'.checked, commit := t'.commit)
    requires InSection(t')
    ensures TxnSound(s', t')
  {
    forall i | i in t'.prewritten && !Doomed(s', t') ensures KeySound(s', t', i) {
      assert KeySound(s, t, i);
    }
  }

  lemma DrawSerial(s: System, id: nat)
    requires SerialInv(s) && Enabled(s, Draw(id))
    ensures SerialInv(Next(s, Draw(id)))
  {
    hide SnapshotInv, OrderSound, RowSound, AllPrewritten, KeySound, KeysDistinct, AllSettled;
    Snapshots.NextKeeps(s, Draw(id));
    var s' := Next(s, Draw(id));
    assert TxnSound(s, s.txns[id]);
    CheckedSound(s, s', s.txns[id], s'.txns[id]);
    SettledStay(s, s', id);
    CommitsBelow(s);
    FreshStays(s, s', s.txns[id]);
    QuietKeeps(s, s', id);
  }

  lemma CommitsBelow(s: System)
    requires SnapshotInv(s)
    ensures forall u :: u in s.txns && Wrote(s.txns[u]) ==> s.txns[u].commit <= s.clock
  {
    forall u | u in s.txns && Wrote(s.txns[u]) ensures s.txns[u].commit <= s.clock {
      assert Timely(s.txns[u], s.clock);
    }
  }

  /** A transaction that had not committed gives up; whatever it locked may be rolled back. */
  lemma AbortingSerial(s: System, id: nat)
    requires SerialInv(s) && id in s.txns && !Wrote(s.txns[id])
    ensures SerialInv(Aborting(s, id))
  {
    hide SnapshotInv, OrderSound, RowSound, AllSettled, KeySound, KeysDistinct, ReadKeys;
    AbortingKeeps(s, id);
    var s' := Aborting(s, id);
    if s.holder != Some(id) {
      SectionQuiet(s, s', id);
    }
    QuietKeeps(s, s', id);
  }

  // ---- proposals ------------------------------------------------------------------

  /** A row moved in nothing but the lock of `start` and the version of `commit`, if there is one. */
  ghost predicate RowStays(row: Row, row': Row, start: int, commit: Option<nat>) {
    && (forall x :: x in row.locks && x != start ==> x in row'.locks && row'.locks[x] == row.locks[x])
    && (forall x :: x in row'.locks && x != start ==> x in row.locks)
    && (forall x :: x in row.versions && commit != Some(x) ==>
          x in row'.versions && row'.versions[x] == row.versions[x])
    && (forall x :: x in row.writes ==> x in row'.writes)
  }

  lemma PrewriteEffect(row: Row, c: Command, now: int)
    requires c.Prewrite? && |row.locks| <= 1
    ensures var e := ApplyRow(row, 0, c, now);
            && e.row.versions == row.versions && e.row.writes == row.writes
            && (e.code == SUCCESS ==>
                  ValidTs(c.startTs) && row.locks == map[]
                  && e.row.locks == map[c.startTs as nat := Lock(c.primary, now, c.value)])
            && (e.code != SUCCESS ==> e.row == row)
  {
  }

  lemma CommitEffect(row: Row, c: Command)
    requires c.Commit?
    ensures var e := ApplyRow(row, 0, c, 0);
            && (e.code == SUCCESS ==>
                  && ValidTs(c.startTs) && ValidTs(c.commitTs) && c.startTs as nat in row.locks
                  && e.row == Row(row.versions[c.commitTs as nat := Value(row.locks[c.startTs as nat].value)],
                                  row.writes[c.commitTs as nat := c.startTs as nat],
                                  row.locks - {c.startTs as nat}))
            && (e.code != SUCCESS ==> e.row == row)
  {
  }

  lemma RollbackEffect(row: Row, c: Command)
    requires c.Rollback?
    ensures var e := ApplyRow(row, 0, c, 0);
            e.row == row || (ValidTs(c.startTs) && e.row == Unlocked(row, c.startTs as nat))
  {
  }

  /** A row put in the place of another. */
  function Put(s: System, key: Bytes, row: Row): System { s.(rows := s.rows[key := row]) }

  lemma OtherSound(s: System, t: Txn, key: Bytes, row: Row, start: int, commit: Option<nat>)
    requires TxnSound(s, t) && RowStays(RowOf(s, key), row, start, commit)
    requires t.phase == Aborted || t.start != start
    requires Wrote(t) ==> commit != Some(t.commit)
    ensures TxnSound(Put(s, key, row), t)
  {
    var s' := Put(s, key, row);
    forall i | i in t.prewritten && t.phase != Aborted && t.phase != Pending && !Doomed(s', t)
      ensures KeySound(s', t, i)
    {
      assert KeySound(s, t, i);
    }
  }

  /** The other transactions, when one proposes. */
  lemma OthersSound(s: System, id: nat, key: Bytes, row: Row, commit: Option<nat>)
    requires SerialInv(s) && id in s.txns && RowStays(RowOf(s, key), row, s.txns[id].start, commit)
    requires commit.Some? ==> HasCommit(s.txns[id]) && commit.value == s.txns[id].commit
    ensures forall q :: q in s.txns && q != id ==> TxnSound(Put(s, key, row), s.txns[q])
  {
    hide TxnSound, RowStays;
    forall q | q in s.txns && q != id ensures TxnSound(Put(s, key, row), s.txns[q]) {
      assert Apart(s.txns[q], s.txns[id]);
      OtherSound(s, s.txns[q], key, row, s.txns[id].start, commit);
    }
  }

  lemma SettledPut(s: System, key: Bytes, row: Row, start: int)
    requires AllSettled(s) && (forall x :: x in row.locks && x != start ==> x in RowOf(s, key).locks)
    requires start in row.locks ==> forall u :: u in s.txns && Wrote(s.txns[u]) ==> s.txns[u].start != start
    ensures AllSettled(Put(s, key, row))
  {
    forall u | u in s.txns && Wrote(s.txns[u]) ensures Settled(Put(s, key, row), s.txns[u]) {
      assert Settled(s, s.txns[u]);
    }
  }

  /** A proposal that changes no write record keeps the section what it is. */
  lemma SectionPut(s: System, key: Bytes, row: Row, start: int)
    requires SectionSound(s) && row.writes == RowOf(s, key).writes
    requires forall x :: x in row.locks && x != start ==> x in RowOf(s, key).locks
    requires start in row.locks ==> forall u :: u in s.txns && Wrote(s.txns[u]) ==> s.txns[u].start != start
    ensures SectionSound(Put(s, key, row))
  {
    hide AllSettled, ReadKeys;
    var s' := Put(s, key, row);
    if s.holder.Some? {
      SettledPut(s, key, row, start);
      var h := s.txns[s.holder.value];
      forall k | k in h.checked ensures forall ts :: ts in RowOf(s', k).writes ==> ts <= h.start {
        assert RowOf(s', k).writes == RowOf(s, k).writes;
      }
    }
  }

  /** And so the rows' versions. */
  lemma RowsPut(s: System, key: Bytes, row: Row, k: Bytes)
    requires RowSound(s, k) && row.versions == RowOf(s, key).versions && row.writes == RowOf(s, key).writes
    ensures RowSound(Put(s, key, row), k)
  {
    var s' := Put(s, key, row);
    forall ts | ts in RowOf(s', k).versions ensures exists u :: WriterOf(s', k, ts, RowOf(s', k).versions[ts], u) {
      var u :| WriterOf(s, k, ts, RowOf(s, k).versions[ts], u);
      assert WriterOf(s', k, ts, RowOf(s', k).versions[ts], u);
    }
  }

  // ---- prewrite and rollback ------------------------------------------------------

  lemma RollbackSerial(s: System, key: Bytes, start: int)
    requires SerialInv(s) && Orderly(s, RollbackKey(key, start))
    ensures SerialInv(Next(s, RollbackKey(key, start)))
  {
    hide SnapshotInv, SectionSound, OrderSound, RowSound, ApplyRow, TxnSound;
    var c := Rollback(key, start);
    var row := ApplyRow(RowOf(s, key), 0, c, 0).row;
    RollbackEffect(RowOf(s, key), c);
    Snapshots.NextKeeps(s, RollbackKey(key, start));
    var s' := Put(s, key, row);
    assert RowStays(RowOf(s, key), row, start, None);
    forall q | q in s.txns ensures TxnSound(s', s.txns[q]) {
      if s.txns[q].start == start {
        OwnRollback(s, s.txns[q], key, row);
      } else {
        OtherSound(s, s.txns[q], key, row, start, None);
      }
    }
    SectionPut(s, key, row, start);
    forall k ensures RowSound(s', k) {
      RowsPut(s, key, row, k);
    }
    SameOrder(s, s');
  }

  /** A transaction that loses a lock it may lose is as sound as it was, or is doomed. */
  lemma OwnRollback(s: System, t: Txn, key: Bytes, row: Row)
    requires TxnSound(s, t) && MayRollBack(s, t, key)
    requires row == RowOf(s, key) || row == Unlocked(RowOf(s, key), t.start)
    ensures TxnSound(Put(s, key, row), t)
  {
    var s' := Put(s, key, row);
    if t.phase != Aborted && t.phase != Pending && !Doomed(s', t) {
      assert !Doomed(s, t);
      forall i | i in t.prewritten ensures KeySound(s', t, i) {
        assert KeySound(s, t, i);
      }
    }
  }

  lemma SameOrder(s: System, s': System)
    requires OrderSound(s) && s'.txns == s.txns
    ensures OrderSound(s')
  {
  }

  /** A prewrite that went through: one more key held. */
  lemma PrewrittenTxn(s: System, id: nat, i: nat, row: Row)
    requires SerialInv(s) && id in s.txns && s.txns[id].phase == Prewriting && i < |s.txns[id].keys|
    requires i !in s.txns[id].prewritten && RowOf(s, s.txns[id].keys[i].0).locks == map[]
    requires var t := s.txns[id];
             row.locks.Keys == {t.start} && row.locks[t.start].value == t.keys[i].1
    ensures var t := s.txns[id];
            TxnSound(Put(s, t.keys[i].0, row), t.(prewritten := t.prewritten + {i}))
  {
    hide SnapshotInv, SectionSound, OrderSound, RowSound;
    var t := s.txns[id];
    var t', s' := t.(prewritten := t.prewritten + {i}), Put(s, t.keys[i].0, row);
    assert TxnSound(s, t);
    if !Doomed(s, t) {
      forall j | j in t.prewritten ensures j < |t.keys| && t.keys[j].0 != t.keys[i].0 {
        assert KeySound(s, t, j);
      }
      forall j | j in t'.prewritten ensures KeySound(s', t', j) {
        if j != i {
          assert KeySound(s, t, j);
        }
      }
      assert !Doomed(s', t');
    } else {
      assert Doomed(s', t');
    }
  }

  lemma PrewriteSerial(s: System, id: nat, i: nat, now: int)
    requires SerialInv(s) && Enabled(s, PrewriteKey(id, i, now))
    ensures SerialInv(Next(s, PrewriteKey(id, i, now)))
  {
    hide SnapshotInv, SectionSound, OrderSound, RowSound, ApplyRow, TxnSound, AllPrewritten;
    var t := s.txns[id];
    var key := t.keys[i].0;
    var c := Prewrite(key, t.keys[i].1, t.start, t.keys[0].0);
    var e := ApplyRow(RowOf(s, key), 0, c, now);
    OneLockAt(s, key);
    PrewriteEffect(RowOf(s, key), c, now);
    Snapshots.NextKeeps(s, PrewriteKey(id, i, now));
    if e.code != SUCCESS {
      SamePut(s, key);
      AbortingPut(s, id, key);
    } else {
      PrewritePasses(s, id, i, e.row);
    }
  }

  lemma OneLockAt(s: System, key: Bytes)
    requires SnapshotInv(s)
    ensures |RowOf(s, key).locks| <= 1
  {
    assert LocksSound(s, key);
  }

  lemma SamePut(s: System, key: Bytes)
    ensures forall k :: RowOf(Put(s, key, RowOf(s, key)), k) == RowOf(s, k)
  {
  }

  /** Writing a row over itself changes nothing that is asked of it. */
  lemma PutSelf(s: System, key: Bytes)
    requires SerialInv(s)
    ensures SerialInv(Put(s, key, RowOf(s, key)))
  {
    hide SectionSound, OrderSound, RowSound, TxnSound, ClockSound;
    var row := RowOf(s, key);
    var s' := Put(s, key, row);
    forall q | q in s.txns ensures TxnSound(s', s.txns[q]) && ReadsSound(s', q) {
      OtherSound(s, s.txns[q], key, row, -1, None);
      assert ReadsSound(s, q);
    }
    forall k ensures RowSound(s', k) && LocksSound(s', k) {
      RowsPut(s, key, row, k);
      assert LocksSound(s, k);
      LocksPutSelf(s, key, k);
    }
    SectionPut(s, key, row, -1);
    SameOrder(s, s');
    SameClock(s, s');
  }

  lemma LocksPutSelf(s: System, key: Bytes, k: Bytes)
    requires LocksSound(s, k)
    ensures LocksSound(Put(s, key, RowOf(s, key)), k)
  {
    var s' := Put(s, key, RowOf(s, key));
    forall t | t in RowOf(s', k).locks ensures exists u :: LockedBy(s', t, u) {
      var u :| LockedBy(s, t, u);
      assert LockedBy(s', t, u);
    }
  }

  lemma AbortingPut(s: System, id: nat, key: Bytes)
    requires SerialInv(s) && id in s.txns && !Wrote(s.txns[id])
    ensures SerialInv(Aborting(Put(s, key, RowOf(s, key)), id))
  {
    hide SerialInv;
    PutSelf(s, key);
    AbortingSerial(Put(s, key, RowOf(s, key)), id);
  }

  lemma PrewritePasses(s: System, id: nat, i: nat, row: Row)
    requires SerialInv(s) && id in s.txns && s.txns[id].phase == Prewriting && i < |s.txns[id].keys|
    requires i !in s.txns[id].prewritten
    requires var t := s.txns[id];
             var before := RowOf(s, t.keys[i].0);
             && before.locks == map[] && row.versions == before.versions && row.writes == before.writes
             && row.locks.Keys == {t.start} && row.locks[t.start].value == t.keys[i].1
    requires var t := s.txns[id];
             SnapshotInv(SetTxn(Put(s, t.keys[i].0, row), id, t.(prewritten := t.prewritten + {i})))
    ensures var t := s.txns[id];
            SerialInv(SetTxn(Put(s, t.keys[i].0, row), id, t.(prewritten := t.prewritten + {i})))
  {
    hide SnapshotInv, SectionSound, OrderSound, RowSound, TxnSound, AllPrewritten;
    var t := s.txns[id];
    var key := t.keys[i].0;
    var p := Put(s, key, row);
    PrewrittenTxn(s, id, i, row);
    OthersSound(s, id, key, row, None);
    StartsDiffer(s, id);
    SectionPut(s, key, row, t.start);
    NotHolding(s, id);
    var s' := SetTxn(p, id, t.(prewritten := t.prewritten + {i}));
    SectionQuiet(p, s', id);
    forall q | q in s'.txns ensures TxnSound(s', s'.txns[q]) {
      SoundByRows(p, s', s'.txns[q]);
    }
    forall k ensures RowSound(s', k) {
      RowsPut(s, key, row, k);
      WritersStay(p, s', k);
    }
    SameWrote(s, s', id);
  }

  lemma StartsDiffer(s: System, id: nat)
    requires SnapshotInv(s) && id in s.txns
    ensures forall u :: u in s.txns && u != id ==> s.txns[u].start != s.txns[id].start
  {
    forall u | u in s.txns && u != id ensures s.txns[u].start != s.txns[id].start {
      assert Apart(s.txns[u], s.txns[id]);
    }
  }

  lemma SoundByRows(s: System, s': System, t: Txn)
    requires TxnSound(s, t) && s'.rows == s.rows
    ensures TxnSound(s', t)
  {
    SameRowsSound(s, s', t);
  }

  lemma SameWrote(s: System, s': System, id: nat)
    requires OrderSound(s) && id in s.txns && !Wrote(s.txns[id]) && id in s'.txns && !Wrote(s'.txns[id])
    requires forall q :: q != id ==> (q in s'.txns <==> q in s.txns) && (q in s.txns ==> s'.txns[q] == s.txns[q])
    ensures OrderSound(s')
  {
    hide Undisturbed;
  }

  // ---- commits --------------------------------------------------------------------

  /** The row once the transaction's lock on it has become its version. */
  function Published(row: Row, t: Txn, value: Bytes): Row {
    Row(row.versions[t.commit := Value(value)], row.writes[t.commit := t.start], row.locks - {t.start})
  }

  /** The system once transaction `id` has committed its `i`-th key. */
  function KeyCommitted(s: System, id: nat, i: nat): System
    requires id in s.txns && i < |s.txns[id].keys|
  {
    var t := s.txns[id];
    var key := t.keys[i].0;
    SetTxn(Put(s, key, Published(RowOf(s, key), t, t.keys[i].1)), id, t.(phase := Committed))
  }

  ghost predicate MayCommit(s: System, id: nat, i: nat) {
    && id in s.txns && HasCommit(s.txns[id]) && i < |s.txns[id].keys|
    && s.txns[id].start in RowOf(s, s.txns[id].keys[i].0).locks
    && (i == 0 || s.txns[id].phase == Committed)
  }

  lemma CommittedSelf(s: System, id: nat, i: nat)
    requires SerialInv(s) && MayCommit(s, id, i)
    ensures TxnSound(KeyCommitted(s, id, i), s.txns[id].(phase := Committed))
  {
    hide SnapshotInv, SectionSound, OrderSound, RowSound;
    var t := s.txns[id];
    var t', s' := t.(phase := Committed), KeyCommitted(s, id, i);
    assert TxnSound(s, t);
    assert i in t.prewritten && KeySound(s, t, i);
    forall j | j in t'.prewritten ensures KeySound(s', t', j) {
      assert KeySound(s, t, j);
      if j != i { assert t.keys[j].0 != t.keys[i].0; }
    }
  }

  lemma CommittedOthers(s: System, id: nat, i: nat, q: nat)
    requires SerialInv(s) && MayCommit(s, id, i) && q in s.txns && q != id
    ensures TxnSound(KeyCommitted(s, id, i), s.txns[q])
  {
    hide SnapshotInv, SectionSound, OrderSound, RowSound, TxnSound;
    var t := s.txns[id];
    var key := t.keys[i].0;
    var row := Published(RowOf(s, key), t, t.keys[i].1);
    OthersSound(s, id, key, row, Some(t.commit));
    SoundByRows(Put(s, key, row), KeyCommitted(s, id, i), s.txns[q]);
  }

  lemma CommittedRow(s: System, id: nat, i: nat, k: Bytes)
    requires SerialInv(s) && MayCommit(s, id, i)
    ensures RowSound(KeyCommitted(s, id, i), k)
  {
    hide SnapshotInv, SectionSound, OrderSound, TxnSound;
    var t, s' := s.txns[id], KeyCommitted(s, id, i);
    assert RowSound(s, k);
    forall ts | ts in RowOf(s', k).versions ensures exists u :: WriterOf(s', k, ts, RowOf(s', k).versions[ts], u) {
      if k == t.keys[i].0 && ts == t.commit {
        assert WriterOf(s', k, ts, RowOf(s', k).versions[ts], id);
      } else {
        var u :| WriterOf(s, k, ts, RowOf(s, k).versions[ts], u);
        assert WriterOf(s', k, ts, RowOf(s', k).versions[ts], u);
      }
    }
  }

  /** Everything that committed before is in what the new commit has checked. */
  lemma NewestUndisturbed(s: System, id: nat, u: nat)
    requires SerialInv(s) && id in s.txns && s.txns[id].phase == Drawn && u in s.txns && u != id && Wrote(s.txns[u])
    ensures Undisturbed(s.txns[id].(phase := Committed), s.txns[u])
    ensures s.txns[u].commit < s.txns[id].commit
  {
    hide OrderSound, RowSound;
    var h, w := s.txns[id], s.txns[u];
    assert HolderSound(s, h);
    assert Settled(s, w) && TxnSound(s, w) && TxnSound(s, h);
    assert Apart(h, w);
    forall o | o in h.observed && Writes(w, o.0) ensures w.commit < h.start {
      assert o.0 in ReadKeys(h);
      var i :| 0 <= i < |w.keys| && w.keys[i].0 == o.0;
      assert KeySound(s, w, i);
      assert w.commit in RowOf(s, o.0).writes;
    }
  }

  lemma CommittedOrder(s: System, id: nat, i: nat)
    requires SerialInv(s) && MayCommit(s, id, i)
    ensures OrderSound(KeyCommitted(s, id, i))
  {
    hide SnapshotInv, SectionSound, RowSound, TxnSound, Undisturbed;
    var t, s' := s.txns[id], KeyCommitted(s, id, i);
    forall p, u | p in s'.txns && u in s'.txns && p != u && Wrote(s'.txns[p]) && Wrote(s'.txns[u])
      ensures Undisturbed(s'.txns[p], s'.txns[u])
    {
      if t.phase == Drawn && p == id {
        NewestUndisturbed(s, id, u);
      } else if t.phase == Drawn && u == id {
        NewestUndisturbed(s, id, p);
        LaterDoesNotDisturb(s'.txns[p], s'.txns[u]);
      }
    }
  }

  lemma LaterDoesNotDisturb(t: Txn, u: Txn)
    requires t.commit < u.commit
    ensures Undisturbed(t, u)
  {
  }

  /** A key of a transaction commits, and nobody holds the commit lock afterwards. */
  lemma CommittedKeeps(s: System, id: nat, i: nat, s': System)
    requires SerialInv(s) && MayCommit(s, id, i)
    requires s' == KeyCommitted(s, id, i).(holder := None) && SnapshotInv(s')
    requires forall p :: p in s.txns && p != id ==> !InSection(s.txns[p])
    ensures SerialInv(s')
  {
    hide SnapshotInv, OrderSound, RowSound, TxnSound;
    var c := KeyCommitted(s, id, i);
    forall q | q in s'.txns ensures TxnSound(s', s'.txns[q]) {
      if q == id { CommittedSelf(s, id, i); } else { CommittedOthers(s, id, i, q); }
      SoundByRows(c, s', s'.txns[q]);
    }
    forall k ensures RowSound(s', k) {
      CommittedRow(s, id, i, k);
      WritersStay(c, s', k);
    }
    CommittedOrder(s, id, i);
    SameOrder(c, s');
  }

  lemma PrimarySerial(s: System, id: nat)
    requires SerialInv(s) && Enabled(s, CommitPrimary(id))
    ensures SerialInv(Next(s, CommitPrimary(id)))
  {
    hide SnapshotInv, OrderSound, RowSound, ApplyRow, TxnSound, HolderSound;
    var t := s.txns[id];
    var key := t.keys[0].0;
    var c := Commit(key, t.start, t.commit);
    var e := ApplyRow(RowOf(s, key), 0, c, 0);
    CommitEffect(RowOf(s, key), c);
    Snapshots.NextKeeps(s, CommitPrimary(id));
    if e.code != SUCCESS {
      AbortingPut(s, id, key);
    } else {
      HeldValue(s, id, 0);
      CommittedKeeps(s, id, 0, Next(s, CommitPrimary(id)));
    }
  }

  lemma HeldValue(s: System, id: nat, i: nat)
    requires SerialInv(s) && MayCommit(s, id, i)
    ensures var t := s.txns[id]; RowOf(s, t.keys[i].0).locks[t.start].value == t.keys[i].1
  {
    hide SnapshotInv, SectionSound, OrderSound, RowSound;
    var t := s.txns[id];
    assert TxnSound(s, t);
    assert i in t.prewritten && KeySound(s, t, i);
  }

  /** While anything is unsettled, nobody holds the commit lock. */
  lemma UnsettledIsFree(s: System, id: nat, i: nat)
    requires SectionSound(s) && id in s.txns && Wrote(s.txns[id]) && i < |s.txns[id].keys|
    requires s.txns[id].start in RowOf(s, s.txns[id].keys[i].0).locks
    ensures s.holder == None
  {
    assert !Settled(s, s.txns[id]);
  }

  lemma SecondarySerial(s: System, id: nat, i: nat)
    requires SerialInv(s) && Enabled(s, CommitSecondary(id, i))
    ensures SerialInv(Next(s, CommitSecondary(id, i)))
  {
    hide SnapshotInv, OrderSound, RowSound, ApplyRow, TxnSound;
    var t := s.txns[id];
    var key := t.keys[i].0;
    var c := Commit(key, t.start, t.commit);
    var e := ApplyRow(RowOf(s, key), 0, c, 0);
    CommitEffect(RowOf(s, key), c);
    Snapshots.NextKeeps(s, CommitSecondary(id, i));
    if e.code != SUCCESS {
      PutSelf(s, key);
    } else {
      HeldValue(s, id, i);
      UnsettledIsFree(s, id, i);
      var s' := Next(s, CommitSecondary(id, i));
      assert s'.txns == s.txns[id := t.(phase := Committed)];
      CommittedKeeps(s, id, i, s');
    }
  }

  // ---- every orderly run ----------------------------------------------------------

  lemma ValidateSerial(s: System, id: nat, key: Bytes)
    requires SerialInv(s) && Enabled(s, Validate(id, key))
    ensures SerialInv(Next(s, Validate(id, key)))
  {
    hide SerialInv;
    var write := Newest(RowOf(s, key).writes);
    if write.Some? && write.value > s.txns[id].start {
      AbortingSerial(s, id);
    } else {
      ValidatePasses(s, id, key);
    }
  }

  lemma NextSerial(s: System, step: Step)
    requires SerialInv(s) && Enabled(s, step) && Orderly(s, step)
    ensures SerialInv(Next(s, step))
  {
    hide SerialInv, Next, AllPrewritten, Read, ReadKeys;
    match step
    case Begin(id) => BeginSerial(s, id);
    case AddWrite(id, _, _) => PendingSerial(s, step, id);
    case ReadKey(id, _) => PendingSerial(s, step, id);
    case StartCommit(id) => PendingSerial(s, step, id);
    case PrewriteKey(id, i, now) => PrewriteSerial(s, id, i, now);
    case Enter(id) => EnterSerial(s, id);
    case Validate(id, key) => ValidateSerial(s, id, key);
    case Draw(id) => DrawSerial(s, id);
    case CommitPrimary(id) => PrimarySerial(s, id);
    case CommitSecondary(id, i) => SecondarySerial(s, id, i);
    case RollbackKey(key, start) => RollbackSerial(s, key, start);
    case Abort(id) => AbortStep(s, id);
  }

  lemma AbortStep(s: System, id: nat)
    requires SerialInv(s) && Enabled(s, Abort(id))
    ensures SerialInv(Next(s, Abort(id)))
  {
    hide SerialInv;
    AbortingSerial(s, id);
  }

  lemma {:induction false} RunSerialInv(states: seq<System>, steps: seq<Step>, i: nat)
    requires OrderlyRun(states, steps) && i < |states|
    ensures SerialInv(states[i])
  {
    hide SerialInv, Next, Enabled, Orderly;
    if i == 0 {
      NewSystemSerial();
    } else {
      RunSerialInv(states, steps, i - 1);
      NextSerial(states[i - 1], steps[i - 1]);
    }
  }

  lemma NewSystemSerial()
    ensures SerialInv(NEW_SYSTEM)
  {
    NewSystemInv();
  }

  // ---- one at a time --------------------------------------------------------------

  type Store = map<Bytes, Bytes>

  function WriteAll(store: Store, keys: seq<(Bytes, Bytes)>): Store {
    if keys == [] then store else WriteAll(store, keys[..|keys| - 1])[keys[|keys| - 1].0 := keys[|keys| - 1].1]
  }

  /** The store after the transactions of `order` have run, each to its end before the next. */
  function Serially(order: seq<Txn>): Store {
    if order == [] then map[] else WriteAll(Serially(order[..|order| - 1]), order[|order| - 1].keys)
  }

  function Lookup(store: Store, key: Bytes): Option<Bytes> {
    if key in store then Some(store[key]) else None
  }

  ghost predicate CommittedIn(s: System, t: Txn, id: nat) {
    id in s.txns && s.txns[id] == t && t.phase == Committed
  }

  ghost predicate IsCommitted(s: System, t: Txn) { exists id :: CommittedIn(s, t, id) }

  /** All the committed transactions, by commit timestamp. */
  ghost predicate SerialOrder(s: System, order: seq<Txn>) {
    && (forall i :: 0 <= i < |order| ==> IsCommitted(s, order[i]))
    && (forall i, j :: 0 <= i < j < |order| ==> order[i].commit < order[j].commit)
    && (forall u :: u in s.txns && s.txns[u].phase == Committed ==> s.txns[u] in order)
  }

  ghost predicate OnceEach(t: Txn) {
    forall i, j :: 0 <= i < j < |t.keys| ==> t.keys[i].0 != t.keys[j].0
  }

  lemma {:induction false} WriteAllLookup(store: Store, keys: seq<(Bytes, Bytes)>, key: Bytes)
    requires forall i, j :: 0 <= i < j < |keys| ==> keys[i].0 != keys[j].0
    ensures (forall i :: 0 <= i < |keys| ==> keys[i].0 != key) ==>
        Lookup(WriteAll(store, keys), key) == Lookup(store, key)
    ensures forall i :: 0 <= i < |keys| && keys[i].0 == key ==> Lookup(WriteAll(store, keys), key) == Some(keys[i].1)
  {
    if keys != [] {
      var n := |keys| - 1;
      WriteAllLookup(store, keys[..n], key);
      forall i | 0 <= i < |keys| && keys[i].0 == key ensures Lookup(WriteAll(store, keys), key) == Some(keys[i].1) {
        if i < n { assert keys[..n][i].0 == key; }
      }
    }
  }

  lemma {:induction false} NeverWritten(order: seq<Txn>, key: Bytes)
    requires forall m :: 0 <= m < |order| ==> OnceEach(order[m]) && !Writes(order[m], key)
    ensures Lookup(Serially(order), key) == None
  {
    if order != [] {
      var n := |order| - 1;
      NeverWritten(order[..n], key);
      WriteAllLookup(Serially(order[..n]), order[n].keys, key);
      assert !Writes(order[n], key);
    }
  }

  /** A key reads as the last transaction that wrote it left it. */
  lemma {:induction false} LastWritten(order: seq<Txn>, key: Bytes, m: nat, i: nat)
    requires forall j :: 0 <= j < |order| ==> OnceEach(order[j])
    requires m < |order| && i < |order[m].keys| && order[m].keys[i].0 == key
    requires forall j :: m < j < |order| ==> !Writes(order[j], key)
    ensures Lookup(Serially(order), key) == Some(order[m].keys[i].1)
  {
    var n := |order| - 1;
    WriteAllLookup(Serially(order[..n]), order[n].keys, key);
    if m < n {
      LastWritten(order[..n], key, m, i);
      assert !Writes(order[n], key);
    }
  }

  lemma CommittedOnce(s: System, t: Txn, id: nat)
    requires SerialInv(s) && CommittedIn(s, t, id)
    ensures OnceEach(t) && t.start <= t.commit && (t.keys == [] ==> t.commit == t.start)
  {
    hide SectionSound, OrderSound, RowSound;
    assert TxnSound(s, t) && Timely(t, s.clock);
  }

  lemma OrderOnce(s: System, order: seq<Txn>)
    requires SerialInv(s) && SerialOrder(s, order)
    ensures forall m :: 0 <= m < |order| ==> OnceEach(order[m])
  {
    hide SerialInv, OnceEach;
    forall m | 0 <= m < |order| ensures OnceEach(order[m]) {
      assert IsCommitted(s, order[m]);
      var id :| CommittedIn(s, order[m], id);
      CommittedOnce(s, order[m], id);
    }
  }

  /** `n` of the order, as far as `key` is concerned, is the moment `t`: exactly the writers before
      it are no later than `t`, and all of those are in the row. */
  ghost predicate Cut(order: seq<Txn>, n: nat, key: Bytes, row: Row, t: int) {
    n <= |order| && forall m {:trigger order[m]} :: 0 <= m < |order| && Writes(order[m], key) ==>
      && (m < n <==> order[m].commit <= t)
      && (m < n ==> order[m].commit in row.versions)
  }

  lemma CutVisible(order: seq<Txn>, n: nat, key: Bytes, row: Row, t: int)
    requires Cut(order, n, key, row, t)
    ensures forall m :: 0 <= m < n && Writes(order[m], key) ==> order[m].commit in AtMost(row.versions, t)
  {
    hide Writes;
  }

  lemma CutUnwritten(order: seq<Txn>, n: nat, key: Bytes, row: Row, t: int)
    requires Cut(order, n, key, row, t) && Newest(AtMost(row.versions, t)) == None
    requires forall j :: 0 <= j < |order| ==> OnceEach(order[j])
    ensures Lookup(Serially(order[..n]), key) == None
  {
    hide Writes, Serially, OnceEach;
    CutVisible(order, n, key, row, t);
    assert AtMost(row.versions, t) == map[];
    NeverWritten(order[..n], key);
  }

  lemma CutWritten(order: seq<Txn>, n: nat, key: Bytes, row: Row, t: int, m: nat, i: nat)
    requires Cut(order, n, key, row, t) && m < |order| && Newest(AtMost(row.versions, t)) == Some(order[m].commit)
    requires i < |order[m].keys| && order[m].keys[i].0 == key
    requires forall j :: 0 <= j < |order| ==> OnceEach(order[j])
    requires forall j, k :: 0 <= j < k < |order| ==> order[j].commit < order[k].commit
    ensures Lookup(Serially(order[..n]), key) == Some(order[m].keys[i].1)
  {
    assert Writes(order[m], key);
    hide Writes, Serially, OnceEach;
    CutVisible(order, n, key, row, t);
    LastWritten(order[..n], key, m, i);
  }

  lemma WriterInOrder(s: System, order: seq<Txn>, key: Bytes, ts: nat) returns (m: nat, i: nat)
    requires RowSound(s, key) && SerialOrder(s, order) && ts in RowOf(s, key).versions
    ensures m < |order| && order[m].commit == ts && i < |order[m].keys| && order[m].keys[i].0 == key
    ensures RowOf(s, key).versions[ts] == Value(order[m].keys[i].1)
  {
    var cell := RowOf(s, key).versions[ts];
    var u :| WriterOf(s, key, ts, cell, u);
    i :| 0 <= i < |s.txns[u].keys| && s.txns[u].keys[i].0 == key && cell == Value(s.txns[u].keys[i].1);
    m :| 0 <= m < |order| && order[m] == s.txns[u];
  }

  /** What is visible at a cut is what running the transactions before it, one at a time, left. */
  lemma VisibleSerially(s: System, order: seq<Txn>, n: nat, key: Bytes, t: int)
    requires SerialInv(s) && SerialOrder(s, order) && Cut(order, n, key, RowOf(s, key), t)
    ensures Lookup(Serially(order[..n]), key) == Visible(RowOf(s, key), t)
  {
    hide SerialInv, Serially, Cut, RowSound, OnceEach, RowOf;
    OrderOnce(s, order);
    RowSoundOf(s, key);
    var row := RowOf(s, key);
    var newest := Newest(AtMost(row.versions, t));
    if newest.None? {
      CutUnwritten(order, n, key, row, t);
    } else {
      var m, i := WriterInOrder(s, order, key, newest.value);
      CutWritten(order, n, key, row, t, m, i);
    }
  }

  lemma RowSoundOf(s: System, key: Bytes)
    requires SerialInv(s)
    ensures RowSound(s, key)
  {
  }

  lemma CommitsDiffer(s: System, p: nat, q: nat)
    requires SerialInv(s) && p in s.txns && q in s.txns && p != q
    requires s.txns[p].phase == Committed && s.txns[q].phase == Committed
    ensures s.txns[p].commit != s.txns[q].commit
  {
    hide SectionSound, OrderSound, RowSound;
    assert TxnSound(s, s.txns[p]) && TxnSound(s, s.txns[q]) && Apart(s.txns[p], s.txns[q]);
  }

  ghost predicate OneOf(s: System, ids: set<nat>, t: Txn) {
    exists p :: p in ids && CommittedIn(s, t, p)
  }

  lemma {:induction false} SortedByCommit(s: System, ids: set<nat>) returns (order: seq<Txn>)
    requires SerialInv(s) && forall p :: p in ids ==> p in s.txns && s.txns[p].phase == Committed
    ensures forall i :: 0 <= i < |order| ==> OneOf(s, ids, order[i])
    ensures forall i, j :: 0 <= i < j < |order| ==> order[i].commit < order[j].commit
    ensures forall p :: p in ids ==> s.txns[p] in order
    decreases |ids|
  {
    hide SerialInv;
    order := [];
    if ids != {} {
      var commits := set p | p in ids :: s.txns[p].commit;
      var some :| some in ids;
      assert s.txns[some].commit in commits;
      var last := MaxKey(commits);
      var p :| p in ids && s.txns[p].commit == last;
      var rest := ids - {p};
      var front := SortedByCommit(s, rest);
      forall i | 0 <= i < |front| ensures front[i].commit < last {
        assert OneOf(s, rest, front[i]);
        var q :| q in rest && CommittedIn(s, front[i], q);
        CommitsDiffer(s, p, q);
        assert s.txns[q].commit in commits;
      }
      order := front + [s.txns[p]];
      forall i | 0 <= i < |order| ensures OneOf(s, ids, order[i]) {
        if i < |front| {
          assert OneOf(s, rest, front[i]);
          var q :| q in rest && CommittedIn(s, front[i], q);
          assert q in ids && CommittedIn(s, order[i], q);
        } else {
          assert CommittedIn(s, order[i], p);
        }
      }
      forall q | q in ids ensures s.txns[q] in order {
        if q == p { assert order[|front|] == s.txns[q]; } else { assert s.txns[q] in front; }
      }
    }
  }

  /** There is such an order. */
  lemma OrderExists(s: System)
    requires SerialInv(s)
    ensures exists order :: SerialOrder(s, order)
  {
    hide SerialInv;
    var ids := set p | p in s.txns && s.txns[p].phase == Committed;
    var order := SortedByCommit(s, ids);
    forall i | 0 <= i < |order| ensures IsCommitted(s, order[i]) {
      assert OneOf(s, ids, order[i]);
      var p :| p in ids && CommittedIn(s, order[i], p);
    }
    forall u | u in s.txns && s.txns[u].phase == Committed ensures s.txns[u] in order {
      assert u in ids;
    }
    assert SerialOrder(s, order);
  }

  /** What a transaction read is cut where the transaction stands in the order. */
  lemma ReadCut(s: System, order: seq<Txn>, n: nat, o: (Bytes, Option<Bytes>))
    requires SerialInv(s) && SerialOrder(s, order) && n < |order| && o in order[n].observed
    ensures Cut(order, n, o.0, RowOf(s, o.0), order[n].start)
    ensures Visible(RowOf(s, o.0), order[n].start) == o.1
  {
    hide SectionSound, RowSound, Visible;
    assert IsCommitted(s, order[n]);
    var p :| CommittedIn(s, order[n], p);
    assert ReadsSound(s, p);
    CommittedOnce(s, order[n], p);
    forall m | 0 <= m < |order| && Writes(order[m], o.0)
      ensures (m < n <==> order[m].commit <= order[n].start) && (m < n ==> order[m].commit in RowOf(s, o.0).versions)
    {
      assert IsCommitted(s, order[m]);
      var u :| CommittedIn(s, order[m], u);
      CommittedOnce(s, order[m], u);
      if m < n {
        BeforeRead(s, p, u, o);
      } else if m > n {
        assert order[n].commit < order[m].commit;
      } else {
        assert Timely(order[n], s.clock);
      }
    }
  }

  /** A writer before the transaction in the order had committed before it started, and on that
      key it is settled. */
  lemma BeforeRead(s: System, p: nat, u: nat, o: (Bytes, Option<Bytes>))
    requires SerialInv(s) && p in s.txns && u in s.txns && p != u
    requires s.txns[p].phase == Committed && Wrote(s.txns[u]) && Writes(s.txns[u], o.0)
    requires o in s.txns[p].observed && s.txns[u].commit < s.txns[p].commit
    ensures s.txns[u].commit <= s.txns[p].start && s.txns[u].commit in RowOf(s, o.0).versions
  {
    hide SectionSound, RowSound, Visible;
    var t, w := s.txns[p], s.txns[u];
    if t.keys == [] {
      assert TxnSound(s, t);
    } else {
      assert Undisturbed(t, w);
    }
    assert Apart(t, w);
    assert ReadsSound(s, p);
    assert TxnSound(s, w);
    var i :| 0 <= i < |w.keys| && w.keys[i].0 == o.0;
    assert KeySound(s, w, i);
  }

  /** Serializability: in every state of every orderly run, run the committed transactions one at a
      time by commit timestamp, and each finds, at its turn, every value it read. */
  lemma Serializable(states: seq<System>, steps: seq<Step>, i: nat, order: seq<Txn>, n: nat, o: (Bytes, Option<Bytes>))
    requires OrderlyRun(states, steps) && i < |states| && SerialOrder(states[i], order)
    requires n < |order| && o in order[n].observed
    ensures Lookup(Serially(order[..n]), o.0) == o.1
  {
    hide SerialInv, Serially, OrderlyRun, Cut, SerialOrder;
    RunSerialInv(states, steps, i);
    ReadCut(states[i], order, n, o);
    VisibleSerially(states[i], order, n, o.0, order[n].start);
  }

  /** And once everything is settled, the store they leave is the database. */
  lemma SerialOutcome(states: seq<System>, steps: seq<Step>, i: nat, order: seq<Txn>, key: Bytes)
    requires OrderlyRun(states, steps) && i < |states| && SerialOrder(states[i], order) && AllSettled(states[i])
    ensures Lookup(Serially(order), key) == Visible(RowOf(states[i], key), states[i].clock)
  {
    hide Serially, OrderlyRun, Visible, OrderSound, RowSound, SectionSound;
    RunSerialInv(states, steps, i);
    var s := states[i];
    forall m | 0 <= m < |order| && Writes(order[m], key)
      ensures order[m].commit <= s.clock && order[m].commit in RowOf(s, key).versions
    {
      assert IsCommitted(s, order[m]);
      var u :| CommittedIn(s, order[m], u);
      var w := order[m];
      assert TxnSound(s, w) && Timely(w, s.clock) && Settled(s, w);
      var j :| 0 <= j < |w.keys| && w.keys[j].0 == key;
      assert KeySound(s, w, j);
    }
    assert order[..|order|] == order;
    VisibleSerially(s, order, |order|, key, s.clock);
  }
}
