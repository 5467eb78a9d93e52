/** Every run of the coordinator keeps what its transactions have read. */
module Snapshots {
  import opened Common
  import opened Rows
  import opened Transactions

  // ---- steps that leave every row alone -------------------------------------------

  /** The transactions went on without anyone drawing a commit timestamp in the past. */
  ghost predicate TxnsGoOn(s: System, s': System) {
    && s'.rows == s.rows && s.clock <= s'.clock
    && (forall p :: p in s.txns ==> p in s'.txns && s'.txns[p].start == s.txns[p].start)
    && (forall p :: p in s.txns && Active(s.txns[p]) ==> Active(s'.txns[p]))
    && (forall u :: u in s'.txns && HasCommit(s'.txns[u]) ==>
          || (u in s.txns && HasCommit(s.txns[u]) && s'.txns[u].commit == s.txns[u].commit)
          || s'.txns[u].commit > s.clock)
  }

  lemma LocksGoOn(s: System, s': System, k: Bytes)
    requires TxnsGoOn(s, s') && LocksSound(s, k)
    ensures LocksSound(s', k)
  {
    forall t | t in RowOf(s', k).locks ensures exists u :: LockedBy(s', t, u) {
      var u :| LockedBy(s, t, u);
      assert LockedBy(s', t, u);
    }
  }

  lemma ReadsGoOn(s: System, s': System, p: nat, o: (Bytes, Option<Bytes>))
    requires TxnsGoOn(s, s') && ClockSound(s) && p in s.txns
    requires ReadSettled(s, p, o.0) && Visible(RowOf(s, o.0), s.txns[p].start) == o.1
    ensures ReadSettled(s', p, o.0) && Visible(RowOf(s', o.0), s'.txns[p].start) == o.1
  {
    hide VisibleAt;
  }

  /** Such a step keeps the invariant, if nobody reads in it. */
  lemma QuietKeeps(s: System, s': System)
    requires SnapshotInv(s) && TxnsGoOn(s, s') && ClockSound(s')
    requires forall p :: p in s'.txns && p in s.txns ==> s'.txns[p].observed == s.txns[p].observed
    requires forall p :: p in s'.txns && p !in s.txns ==> s'.txns[p].observed == {}
    ensures SnapshotInv(s')
  {
    hide TxnsGoOn, ClockSound, LocksSound, ReadSettled, Visible;
    forall k ensures LocksSound(s', k) {
      LocksGoOn(s, s', k);
    }
    forall p, o | p in s'.txns && o in s'.txns[p].observed
      ensures ReadSettled(s', p, o.0) && Visible(RowOf(s', o.0), s'.txns[p].start) == o.1
    {
      assert ReadsSound(s, p);
      ReadsGoOn(s, s', p, o);
    }
  }

  /** One transaction's timestamps changed, and are still its own. */
  lemma ClockMoves(s: System, id: nat, t: Txn, clock: nat, holder: Option<nat>)
    requires ClockSound(s) && s.clock <= clock && Timely(t, clock)
    requires forall q :: q in s.txns && q != id ==> Apart(s.txns[q], t) && Apart(t, s.txns[q])
    ensures ClockSound(SetTxn(s.(clock := clock), id, t).(holder := holder))
  {
    var s' := SetTxn(s.(clock := clock), id, t).(holder := holder);
    forall p | p in s'.txns ensures Timely(s'.txns[p], clock) {
      if p != id { assert Timely(s.txns[p], s.clock); }
    }
    hide Apart, Timely;
    forall p, q | p in s'.txns && q in s'.txns && p != q ensures Apart(s'.txns[p], s'.txns[q]) {
    }
  }

  /** A timestamp just drawn is nobody else's. */
  lemma DrawnApart(s: System, id: nat, t: Txn)
    requires ClockSound(s)
    requires (id !in s.txns && t.start == s.clock + 1 && !HasCommit(t))
             || (id in s.txns && t.start == s.txns[id].start && t.commit == s.clock + 1)
    ensures forall q :: q in s.txns && q != id ==> Apart(s.txns[q], t) && Apart(t, s.txns[q])
  {
    forall q | q in s.txns && q != id ensures Apart(s.txns[q], t) && Apart(t, s.txns[q]) {
      assert Timely(s.txns[q], s.clock);
      if id in s.txns { assert Apart(s.txns[id], s.txns[q]); }
    }
  }

  function Begun(s: System, id: nat): System {
    SetTxn(s.(clock := s.clock + 1), id, Txn(s.clock + 1, [], {}, {}, {}, Pending, 0))
  }

  lemma BeginGoesOn(s: System, id: nat)
    requires ClockSound(s) && id !in s.txns
    ensures TxnsGoOn(s, Begun(s, id)) && ClockSound(Begun(s, id))
  {
    var t := Begun(s, id).txns[id];
    DrawnApart(s, id, t);
    ClockMoves(s, id, t, s.clock + 1, s.holder);
  }

  lemma BeginKeeps(s: System, id: nat)
    requires SnapshotInv(s) && id !in s.txns
    ensures SnapshotInv(Begun(s, id))
  {
    hide ClockSound, TxnsGoOn, LocksSound, ReadsSound;
    BeginGoesOn(s, id);
    QuietKeeps(s, Begun(s, id));
  }

  function WithCommit(s: System, id: nat): System
    requires id in s.txns
  {
    SetTxn(s.(clock := s.clock + 1), id, s.txns[id].(phase := Drawn, commit := s.clock + 1))
  }

  lemma DrawGoesOn(s: System, id: nat)
    requires ClockSound(s) && id in s.txns && s.txns[id].phase == Validating
    ensures TxnsGoOn(s, WithCommit(s, id)) && ClockSound(WithCommit(s, id))
  {
    var t := WithCommit(s, id).txns[id];
    assert Timely(s.txns[id], s.clock);
    DrawnApart(s, id, t);
    ClockMoves(s, id, t, s.clock + 1, s.holder);
  }

  lemma DrawKeeps(s: System, id: nat)
    requires SnapshotInv(s) && id in s.txns && s.txns[id].phase == Validating
    ensures SnapshotInv(WithCommit(s, id))
  {
    hide ClockSound, TxnsGoOn, LocksSound, ReadsSound;
    DrawGoesOn(s, id);
    QuietKeeps(s, WithCommit(s, id));
  }

  /** The transaction moved on, with no new timestamp. */
  predicate MovesOn(t: Txn, t': Txn) {
    && t'.start == t.start && (Active(t) ==> Active(t'))
    && (HasCommit(t') ==> HasCommit(t) && t'.commit == t.commit)
  }

  lemma MoveGoesOn(s: System, id: nat, t: Txn, holder: Option<nat>)
    requires ClockSound(s) && id in s.txns && MovesOn(s.txns[id], t)
    ensures TxnsGoOn(s, SetTxn(s, id, t).(holder := holder)) && ClockSound(SetTxn(s, id, t).(holder := holder))
  {
    assert Timely(s.txns[id], s.clock);
    forall q | q in s.txns && q != id ensures Apart(s.txns[q], t) && Apart(t, s.txns[q]) {
      assert Apart(s.txns[q], s.txns[id]);
    }
    ClockMoves(s, id, t, s.clock, holder);
  }

  lemma MoveKeeps(s: System, id: nat, t: Txn, holder: Option<nat>)
    requires SnapshotInv(s) && id in s.txns && MovesOn(s.txns[id], t) && t.observed == s.txns[id].observed
    ensures SnapshotInv(SetTxn(s, id, t).(holder := holder))
  {
    hide ClockSound, TxnsGoOn, LocksSound, ReadsSound, MovesOn;
    MoveGoesOn(s, id, t, holder);
    QuietKeeps(s, SetTxn(s, id, t).(holder := holder));
  }

  lemma AbortingKeeps(s: System, id: nat)
    requires SnapshotInv(s) && id in s.txns
    ensures SnapshotInv(Aborting(s, id))
  {
    hide SnapshotInv;
    var t := s.txns[id].(phase := Aborted);
    var holder := if s.holder == Some(id) then None else s.holder;
    assert Aborting(s, id) == SetTxn(s, id, t).(holder := holder);
    MoveKeeps(s, id, t, holder);
  }

  lemma OnlyLock(row: Row, t: nat)
    requires |row.locks| <= 1 && t in row.locks
    ensures Newest(row.locks) == Some(t)
  {
    var newest := Newest(row.locks).value;
    SubsetSize({t, newest}, row.locks.Keys);
    if t != newest {
      assert false;
    }
  }

  /** No lock is a pending transaction's own. */
  lemma PendingUnlocked(s: System, id: nat, key: Bytes)
    requires ClockSound(s) && LocksSound(s, key) && id in s.txns && s.txns[id].phase == Pending
    ensures s.txns[id].start !in RowOf(s, key).locks
  {
    var start := s.txns[id].start;
    forall u | u in s.txns && u != id ensures s.txns[u].start != start {
      assert Apart(s.txns[u], s.txns[id]);
    }
    assert forall u :: !LockedBy(s, start, u);
  }

  /** A read that is answered: nothing older is locked on the key, and its own lock cannot be. */
  lemma AnsweredUnlocked(s: System, id: nat, key: Bytes)
    requires ClockSound(s) && LocksSound(s, key) && id in s.txns && s.txns[id].phase == Pending
    requires Read(RowOf(s, key), Some(s.txns[id].start), 0).Found?
    ensures forall t :: t in RowOf(s, key).locks ==> t > s.txns[id].start
    ensures Read(RowOf(s, key), Some(s.txns[id].start), 0).value == Visible(RowOf(s, key), s.txns[id].start)
  {
    PendingUnlocked(s, id, key);
    hide VisibleAt, ClockSound;
    var row, start := RowOf(s, key), s.txns[id].start;
    forall t | t in row.locks ensures t > start {
      OnlyLock(row, t);
    }
  }

  function Observing(s: System, id: nat, key: Bytes): System
    requires id in s.txns
  {
    var t := s.txns[id];
    SetTxn(s, id, t.(observed := t.observed + {(key, Visible(RowOf(s, key), t.start))}))
  }

  lemma UnlockedSettles(s: System, id: nat, key: Bytes)
    requires ClockSound(s) && id in s.txns && forall t :: t in RowOf(s, key).locks ==> t > s.txns[id].start
    ensures ReadSettled(s, id, key)
  {
  }

  lemma ReadKeeps(s: System, id: nat, key: Bytes)
    requires SnapshotInv(s) && id in s.txns && s.txns[id].phase == Pending
    requires Read(RowOf(s, key), Some(s.txns[id].start), 0).Found?
    ensures SnapshotInv(Observing(s, id, key))
  {
    hide VisibleAt, Read, TxnsGoOn, ClockSound, LocksSound, ReadSettled, Visible;
    var s' := Observing(s, id, key);
    assert LocksSound(s, key);
    AnsweredUnlocked(s, id, key);
    UnlockedSettles(s, id, key);
    assert s' == SetTxn(s, id, s'.txns[id]).(holder := s.holder);
    MoveGoesOn(s, id, s'.txns[id], s.holder);
    forall k ensures LocksSound(s', k) {
      LocksGoOn(s, s', k);
    }
    forall p, o | p in s'.txns && o in s'.txns[p].observed
      ensures ReadSettled(s', p, o.0) && Visible(RowOf(s', o.0), s'.txns[p].start) == o.1
    {
      assert ReadsSound(s, p);
      ReadsGoOn(s, s', p, o);
    }
  }

  // ---- proposals ------------------------------------------------------------------

  /** What a command does to a row's locks: the ones it leaves were there, or are its own. */
  lemma LocksMove(row: Row, c: Command, now: int)
    requires |row.locks| <= 1 && (c.Prewrite? || c.Commit? || c.Rollback?)
    ensures var e := ApplyRow(row, 0, c, now);
            && |e.row.locks| <= 1
            && (forall t :: t in e.row.locks ==> t in row.locks || (c.Prewrite? && e.code == SUCCESS && t == c.startTs))
  {
    var e := ApplyRow(row, 0, c, now);
    if c.Prewrite? && e.code == SUCCESS {
      assert e.row.locks.Keys == {c.startTs as nat};
    } else if e.row.locks != row.locks {
      assert e.row.locks.Keys == row.locks.Keys - {c.startTs as nat};
      SubsetSize(e.row.locks.Keys, row.locks.Keys);
    }
  }

  /** And to its versions: the only one it adds is one its lock was there for. */
  lemma VersionsMove(row: Row, c: Command, now: int)
    requires c.Prewrite? || c.Commit? || c.Rollback?
    ensures var e := ApplyRow(row, 0, c, now);
            || e.row.versions == row.versions
            || (c.Commit? && ValidTs(c.startTs) && ValidTs(c.commitTs)
                && c.startTs as nat in row.locks && e.row.versions.Keys == row.versions.Keys + {c.commitTs as nat}
                && forall t :: t in row.versions && t != c.commitTs ==> e.row.versions[t] == row.versions[t])
  {
  }

  /** A version past the timestamp of a read is not in it. */
  lemma NewerUnseen(a: Row, b: Row, commit: nat, t: int)
    requires commit > t && b.versions.Keys == a.versions.Keys + {commit}
    requires forall x :: x in a.versions && x != commit ==> b.versions[x] == a.versions[x]
    ensures Visible(b, t) == Visible(a, t)
  {
    assert AtMost(a.versions, t) == AtMost(b.versions, t);
  }

  ghost predicate CommitsAs(s: System, c: Command, id: nat) {
    && c.Commit? && id in s.txns && HasCommit(s.txns[id])
    && s.txns[id].start == c.startTs && s.txns[id].commit == c.commitTs
  }

  ghost predicate PrewritesAs(s: System, c: Command, id: nat) {
    && c.Prewrite? && id in s.txns && s.txns[id].phase == Prewriting && s.txns[id].keys != []
    && s.txns[id].start == c.startTs
  }

  /** A proposal some transaction may make, or anyone's rollback. */
  ghost predicate Proposes(s: System, c: Command) {
    c.Rollback? || (exists id :: PrewritesAs(s, c, id)) || (exists id :: CommitsAs(s, c, id))
  }

  lemma ProposedLocks(s: System, c: Command, now: int, k: Bytes)
    requires LocksSound(s, k) && Proposes(s, c)
    ensures LocksSound(Propose(s, c, now).0, k)
  {
    hide ApplyRow;
    var s' := Propose(s, c, now).0;
    if k == c.key {
      LocksMove(RowOf(s, k), c, now);
    }
    forall t | t in RowOf(s', k).locks ensures exists u :: LockedBy(s', t, u) {
      if t in RowOf(s, k).locks {
        var u :| LockedBy(s, t, u);
        assert LockedBy(s', t, u);
      } else {
        var u :| PrewritesAs(s, c, u);
        assert LockedBy(s', t, u);
      }
    }
  }

  lemma ProposedReads(s: System, c: Command, now: int, p: nat, o: (Bytes, Option<Bytes>))
    requires ClockSound(s) && LocksSound(s, o.0) && Proposes(s, c) && p in s.txns
    requires ReadSettled(s, p, o.0) && Visible(RowOf(s, o.0), s.txns[p].start) == o.1
    ensures var s' := Propose(s, c, now).0;
            ReadSettled(s', p, o.0) && Visible(RowOf(s', o.0), s'.txns[p].start) == o.1
  {
    hide ApplyRow, VisibleAt;
    var s' := Propose(s, c, now).0;
    if o.0 == c.key {
      var row, row' := RowOf(s, o.0), RowOf(s', o.0);
      LocksMove(row, c, now);
      VersionsMove(row, c, now);
      ProposedSettled(s, c, now, p, o.0);
      if row'.versions != row.versions {
        var u :| CommitsAs(s, c, u);
        NewerUnseen(row, row', c.commitTs as nat, s.txns[p].start);
      } else {
        SameVersionsVisible(row, row', s.txns[p].start);
      }
    }
  }

  lemma SameVersionsVisible(a: Row, b: Row, t: int)
    requires a.versions == b.versions
    ensures Visible(a, t) == Visible(b, t)
  {
  }

  lemma ProposedSettled(s: System, c: Command, now: int, p: nat, key: Bytes)
    requires ClockSound(s) && LocksSound(s, key) && Proposes(s, c) && p in s.txns && c.key == key
    requires ReadSettled(s, p, key)
    ensures ReadSettled(Propose(s, c, now).0, p, key)
  {
    hide ApplyRow;
    var s' := Propose(s, c, now).0;
    LocksMove(RowOf(s, key), c, now);
    forall u | u in s'.txns && HasCommit(s'.txns[u]) && s'.txns[u].commit < s'.txns[p].start
      ensures s'.txns[u].start !in RowOf(s', key).locks
    {
      forall w | PrewritesAs(s, c, w) ensures c.startTs != s.txns[u].start {
        assert w != u;
        assert Apart(s.txns[w], s.txns[u]);
      }
    }
  }

  /** A proposal keeps everything that was read. */
  lemma ProposeKeeps(s: System, c: Command, now: int)
    requires SnapshotInv(s) && Proposes(s, c)
    ensures SnapshotInv(Propose(s, c, now).0)
  {
    hide ApplyRow, LocksSound, Visible, ReadSettled, ClockSound;
    var s' := Propose(s, c, now).0;
    forall k ensures LocksSound(s', k) {
      ProposedLocks(s, c, now, k);
    }
    forall p, o | p in s'.txns && o in s'.txns[p].observed
      ensures ReadSettled(s', p, o.0) && Visible(RowOf(s', o.0), s'.txns[p].start) == o.1
    {
      assert ReadsSound(s, p) && LocksSound(s, o.0);
      ProposedReads(s, c, now, p, o);
    }
    SameClock(s, s');
  }

  lemma SameClock(s: System, s': System)
    requires ClockSound(s) && s'.txns == s.txns && s'.clock == s.clock
    ensures ClockSound(s')
  {
  }

  // ---- every run ------------------------------------------------------------------

  lemma PrewriteKeeps(s: System, id: nat, i: nat, now: int)
    requires SnapshotInv(s) && Enabled(s, PrewriteKey(id, i, now))
    ensures SnapshotInv(Next(s, PrewriteKey(id, i, now)))
  {
    hide SnapshotInv, ApplyRow, AllPrewritten;
    var t := s.txns[id];
    var c := Prewrite(t.keys[i].0, t.keys[i].1, t.start, t.keys[0].0);
    assert PrewritesAs(s, c, id);
    ProposeKeeps(s, c, now);
    var (s', code) := Propose(s, c, now);
    if code == SUCCESS {
      MoveKeeps(s', id, t.(prewritten := t.prewritten + {i}), s'.holder);
    } else {
      AbortingKeeps(s', id);
    }
  }

  lemma PrimaryKeeps(s: System, id: nat)
    requires SnapshotInv(s) && Enabled(s, CommitPrimary(id))
    ensures SnapshotInv(Next(s, CommitPrimary(id)))
  {
    hide SnapshotInv, ApplyRow;
    var t := s.txns[id];
    var c := Commit(t.keys[0].0, t.start, t.commit);
    assert CommitsAs(s, c, id);
    ProposeKeeps(s, c, 0);
    var (s', code) := Propose(s, c, 0);
    if code == SUCCESS {
      var t' := t.(phase := Committed);
      var holder := if s'.holder == Some(id) then None else s'.holder;
      assert Release(SetTxn(s', id, t'), id) == SetTxn(s', id, t').(holder := holder);
      MoveKeeps(s', id, t', holder);
    } else {
      AbortingKeeps(s', id);
    }
  }

  lemma SecondaryKeeps(s: System, id: nat, i: nat)
    requires SnapshotInv(s) && Enabled(s, CommitSecondary(id, i))
    ensures SnapshotInv(Next(s, CommitSecondary(id, i)))
  {
    hide SnapshotInv, ApplyRow;
    var t := s.txns[id];
    var c := Commit(t.keys[i].0, t.start, t.commit);
    assert CommitsAs(s, c, id);
    ProposeKeeps(s, c, 0);
  }

  lemma ValidateKeeps(s: System, id: nat, key: Bytes)
    requires SnapshotInv(s) && Enabled(s, Validate(id, key))
    ensures SnapshotInv(Next(s, Validate(id, key)))
  {
    hide SnapshotInv, AllPrewritten;
    var t := s.txns[id];
    MoveKeeps(s, id, t.(checked := t.checked + {key}), s.holder);
    AbortingKeeps(s, id);
  }

  lemma NextKeeps(s: System, step: Step)
    requires SnapshotInv(s) && Enabled(s, step)
    ensures SnapshotInv(Next(s, step))
  {
    hide SnapshotInv, ApplyRow, AllPrewritten, Read, Visible;
    match step
    case Begin(id) => BeginKeeps(s, id);
    case AddWrite(id, key, value) =>
      MoveKeeps(s, id, s.txns[id].(keys := s.txns[id].keys + [(key, value)]), s.holder);
    case ReadKey(id, key) => ReadValue(s, id, key); ReadKeeps(s, id, key);
    case StartCommit(id) =>
      var t := s.txns[id];
      MoveKeeps(s, id, if t.keys == [] then t.(phase := Committed, commit := t.start) else t.(phase := Prewriting),
                s.holder);
    case PrewriteKey(id, i, now) => PrewriteKeeps(s, id, i, now);
    case Enter(id) => MoveKeeps(s, id, s.txns[id].(phase := Validating), Some(id));
    case Validate(id, key) => ValidateKeeps(s, id, key);
    case Draw(id) => DrawKeeps(s, id);
    case CommitPrimary(id) => PrimaryKeeps(s, id);
    case CommitSecondary(id, i) => SecondaryKeeps(s, id, i);
    case RollbackKey(key, start) => ProposeKeeps(s, Rollback(key, start), 0);
    case Abort(id) => AbortingKeeps(s, id);
  }

  lemma ReadValue(s: System, id: nat, key: Bytes)
    requires SnapshotInv(s) && Enabled(s, ReadKey(id, key))
    ensures Read(RowOf(s, key), Some(s.txns[id].start), 0).value == Visible(RowOf(s, key), s.txns[id].start)
  {
    hide ClockSound, ReadsSound;
    assert LocksSound(s, key);
    AnsweredUnlocked(s, id, key);
  }

  lemma {:induction false} RunKeeps(states: seq<System>, steps: seq<Step>, i: nat)
    requires Run(states, steps) && i < |states|
    ensures SnapshotInv(states[i])
  {
    hide SnapshotInv, Next, Enabled;
    if i == 0 {
      NewSystemInv();
    } else {
      RunKeeps(states, steps, i - 1);
      NextKeeps(states[i - 1], steps[i - 1]);
    }
  }

  lemma NewSystemInv()
    ensures SnapshotInv(NEW_SYSTEM)
  {
  }

  lemma ObservedStays(s: System, step: Step, p: nat)
    requires Enabled(s, step) && p in s.txns
    ensures var s' := Next(s, step);
            p in s'.txns && s'.txns[p].start == s.txns[p].start && s.txns[p].observed <= s'.txns[p].observed
  {
    hide ApplyRow, Read, AllPrewritten;
  }

  lemma {:induction false} ObservedLater(states: seq<System>, steps: seq<Step>, i: nat, j: nat, p: nat)
    requires Run(states, steps) && i <= j < |states| && p in states[i].txns
    ensures p in states[j].txns && states[j].txns[p].start == states[i].txns[p].start
    ensures states[i].txns[p].observed <= states[j].txns[p].observed
    decreases j
  {
    hide Next, Enabled;
    if i < j {
      ObservedLater(states, steps, i, j - 1, p);
      ObservedStays(states[j - 1], steps[j - 1], p);
    }
  }

  /** Repeatable snapshot reads: once a transaction has read a key, every later read of it that is
      answered, at any point of the run before the transaction's own prewrites, gives the same. */
  lemma RepeatableReads(states: seq<System>, steps: seq<Step>, i: nat, j: nat, p: nat, key: Bytes, v: Option<Bytes>)
    requires Run(states, steps) && i <= j < |states| && p in states[i].txns
    requires (key, v) in states[i].txns[p].observed
    requires p in states[j].txns && states[j].txns[p].phase == Pending
    ensures var a := Read(RowOf(states[j], key), Some(states[j].txns[p].start), 0);
            a.Found? ==> a.value == v
  {
    hide Next, Enabled, ClockSound, Read, Visible;
    RunKeeps(states, steps, j);
    ObservedLater(states, steps, i, j, p);
    var s := states[j];
    assert ReadsSound(s, p) && LocksSound(s, key);
    if Read(RowOf(s, key), Some(s.txns[p].start), 0).Found? {
      AnsweredUnlocked(s, p, key);
    }
  }
}
