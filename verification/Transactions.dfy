/**
  One coordinator running any number of transactions at once: reads at a start timestamp, locks
  on every key, validation and the primary's commit under the commit lock, then the secondaries.
  Each proposal is one step with a definite answer; rollbacks come from the coordinator or from
  any resolver.
*/
module Transactions {
  import opened Common
  import opened Rows

  datatype Phase = Pending | Prewriting | Validating | Drawn | Committed | Aborted

  datatype Txn = Txn(
    start: nat,
    keys: seq<(Bytes, Bytes)>,                  // what it writes; the first is the primary
    prewritten: set<nat>,                       // which of those hold a lock
    observed: set<(Bytes, Option<Bytes>)>,      // every read it was answered
    checked: set<Bytes>,                        // reads validated so far
    phase: Phase,
    commit: nat)

  datatype System = System(
    clock: nat,
    rows: map<Bytes, Row>,
    txns: map<nat, Txn>,
    holder: Option<nat>)                        // of the commit lock

  const NEW_SYSTEM := System(0, map[], map[], None)

  datatype Step =
    | Begin(id: nat)
    | AddWrite(id: nat, key: Bytes, value: Bytes)
    | ReadKey(id: nat, key: Bytes)
    | StartCommit(id: nat)
    | PrewriteKey(id: nat, i: nat, now: int)
    | Enter(id: nat)                            // takes the commit lock
    | Validate(id: nat, key: Bytes)
    | Draw(id: nat)
    | CommitPrimary(id: nat)
    | CommitSecondary(id: nat, i: nat)
    | RollbackKey(key: Bytes, start: int)
    | Abort(id: nat)

  function RowOf(s: System, key: Bytes): Row {
    if key in s.rows then s.rows[key] else EMPTY_ROW
  }

  function Propose(s: System, c: Command, now: int): (System, nat)
    requires Keyed(c)
  {
    var e := ApplyRow(RowOf(s, c.key), 0, c, now);
    (s.(rows := s.rows[c.key := e.row]), e.code)
  }

  function SetTxn(s: System, id: nat, t: Txn): System { s.(txns := s.txns[id := t]) }

  function Release(s: System, id: nat): System {
    if s.holder == Some(id) then s.(holder := None) else s
  }

  function Aborting(s: System, id: nat): System
    requires id in s.txns
  {
    Release(SetTxn(s, id, s.txns[id].(phase := Aborted)), id)
  }

  function ReadKeys(t: Txn): set<Bytes> { set o | o in t.observed :: o.0 }

  predicate AllPrewritten(t: Txn) { forall i: nat :: i < |t.keys| ==> i in t.prewritten }

  predicate Enabled(s: System, step: Step) {
    match step
    case Begin(id) => id !in s.txns
    case AddWrite(id, _, _) => id in s.txns && s.txns[id].phase == Pending
    case ReadKey(id, key) =>
      id in s.txns && s.txns[id].phase == Pending && Read(RowOf(s, key), Some(s.txns[id].start), 0).Found?
    case StartCommit(id) => id in s.txns && s.txns[id].phase == Pending
    case PrewriteKey(id, i, _) =>
      id in s.txns && s.txns[id].phase == Prewriting && i < |s.txns[id].keys| && i !in s.txns[id].prewritten
    case Enter(id) =>
      id in s.txns && s.txns[id].phase == Prewriting && AllPrewritten(s.txns[id]) && s.holder == None
    case Validate(id, key) => id in s.txns && s.txns[id].phase == Validating && key in ReadKeys(s.txns[id])
    case Draw(id) => id in s.txns && s.txns[id].phase == Validating && ReadKeys(s.txns[id]) <= s.txns[id].checked
    case CommitPrimary(id) => id in s.txns && s.txns[id].phase == Drawn && s.txns[id].keys != []
    case CommitSecondary(id, i) =>
      id in s.txns && s.txns[id].phase == Committed && i < |s.txns[id].keys|
    case RollbackKey(_, _) => true
    case Abort(id) => id in s.txns && s.txns[id].phase != Committed
  }

  function Next(s: System, step: Step): System
    requires Enabled(s, step)
  {
    match step
    case Begin(id) =>
      SetTxn(s.(clock := s.clock + 1), id, Txn(s.clock + 1, [], {}, {}, {}, Pending, 0))
    case AddWrite(id, key, value) =>
      SetTxn(s, id, s.txns[id].(keys := s.txns[id].keys + [(key, value)]))
    case ReadKey(id, key) =>
      var t := s.txns[id];
      SetTxn(s, id, t.(observed := t.observed + {(key, Read(RowOf(s, key), Some(t.start), 0).value)}))
    case StartCommit(id) =>
      var t := s.txns[id];
      SetTxn(s, id, if t.keys == [] then t.(phase := Committed, commit := t.start) else t.(phase := Prewriting))
    case PrewriteKey(id, i, now) =>
      var t := s.txns[id];
      var (s', code) := Propose(s, Prewrite(t.keys[i].0, t.keys[i].1, t.start, t.keys[0].0), now);
      if code == SUCCESS then SetTxn(s', id, t.(prewritten := t.prewritten + {i})) else Aborting(s', id)
    case Enter(id) => SetTxn(s, id, s.txns[id].(phase := Validating)).(holder := Some(id))
    case Validate(id, key) =>
      var t := s.txns[id];
      var write := Newest(RowOf(s, key).writes);
      if write.Some? && write.value > t.start then Aborting(s, id)
      else SetTxn(s, id, t.(checked := t.checked + {key}))
    case Draw(id) =>
      SetTxn(s.(clock := s.clock + 1), id, s.txns[id].(phase := Drawn, commit := s.clock + 1))
    case CommitPrimary(id) =>
      var t := s.txns[id];
      var (s', code) := Propose(s, Commit(t.keys[0].0, t.start, t.commit), 0);
      if code == SUCCESS then Release(SetTxn(s', id, t.(phase := Committed)), id) else Aborting(s', id)
    case CommitSecondary(id, i) =>
      var t := s.txns[id];
      Propose(s, Commit(t.keys[i].0, t.start, t.commit), 0).0
    case RollbackKey(key, start) => Propose(s, Rollback(key, start), 0).0
    case Abort(id) => Aborting(s, id)
  }

  ghost predicate Run(states: seq<System>, steps: seq<Step>) {
    && |states| == |steps| + 1 && states[0] == NEW_SYSTEM
    && forall i :: 0 <= i < |steps| ==> Enabled(states[i], steps[i]) && states[i + 1] == Next(states[i], steps[i])
  }

  // ---- timestamps and locks: what every run keeps ---------------------------------

  /** A transaction that has drawn its commit timestamp and not given up. */
  predicate HasCommit(t: Txn) { t.keys != [] && (t.phase == Drawn || t.phase == Committed) }

  predicate Timely(t: Txn, clock: nat) {
    t.start <= clock && (HasCommit(t) ==> t.start < t.commit <= clock)
  }

  /** No timestamp of the one is a timestamp of the other. */
  predicate Apart(t: Txn, u: Txn) {
    && t.start != u.start
    && (HasCommit(t) ==> t.commit != u.start)
    && (HasCommit(u) ==> t.start != u.commit)
    && (HasCommit(t) && HasCommit(u) ==> t.commit != u.commit)
  }

  ghost predicate ClockSound(s: System) {
    && (forall p :: p in s.txns ==> Timely(s.txns[p], s.clock))
    && (forall p, q :: p in s.txns && q in s.txns && p != q ==> Apart(s.txns[p], s.txns[q]))
  }

  /** `u` has locked, or has written, something under its own timestamps. */
  predicate Active(u: Txn) { u.phase != Pending && u.keys != [] }

  predicate LockedBy(s: System, start: nat, u: nat) { u in s.txns && s.txns[u].start == start && Active(s.txns[u]) }

  ghost predicate LocksSound(s: System, key: Bytes) {
    && |RowOf(s, key).locks| <= 1
    && forall t :: t in RowOf(s, key).locks ==> exists u :: LockedBy(s, t, u)
  }

  /** Once a read was answered, no lock is left on the key of anything that commits before it. */
  ghost predicate ReadSettled(s: System, p: nat, key: Bytes)
    requires p in s.txns
  {
    forall u :: u in s.txns && HasCommit(s.txns[u]) && s.txns[u].commit < s.txns[p].start ==>
      s.txns[u].start !in RowOf(s, key).locks
  }

  function Visible(row: Row, t: int): Option<Bytes> {
    match VisibleAt(row, t)
    case None => None
    case Some(v) => Some(v.0)
  }

  ghost predicate ReadsSound(s: System, p: nat)
    requires p in s.txns
  {
    forall o :: o in s.txns[p].observed ==>
      ReadSettled(s, p, o.0) && Visible(RowOf(s, o.0), s.txns[p].start) == o.1
  }

  ghost predicate SnapshotInv(s: System) {
    && ClockSound(s)
    && (forall k :: LocksSound(s, k))
    && (forall p :: p in s.txns ==> ReadsSound(s, p))
  }
}
