/**
  The primary decides: any number of coordinators and resolvers, each stopping anywhere, with
  proposals that are applied late, more than once or never.
*/
module Percolator {
  import opened Common
  import opened Rows

  /** `primaries` and `commits` are keyed by start timestamp; `locksSeen` and `writesSeen` are what
      some resolver has been shown, however long ago. */
  datatype World = World(
    rows: map<Bytes, Row>,
    primaries: map<int, Bytes>,
    commits: map<int, int>,
    acknowledged: set<int>,
    locksSeen: set<(Bytes, int, Bytes)>,
    writesSeen: set<(Bytes, int, int)>,
    sent: set<Command>)

  const NEW_WORLD := World(map[], map[], map[], {}, {}, {}, {})

  datatype Step =
    | Begin(start: int, primary: Bytes)
    | SendPrewrite(start: int, key: Bytes, value: Bytes)
    | DrawCommit(start: int, commit: int)
    | SendPrimary(start: int)
    | Acknowledge(start: int)                                   // the primary's commit was answered with success
    | SendSecondary(start: int, key: Bytes)
    | SendOther(command: Command)                               // a rollback, a lock cleaned, a plain write
    | SeeLock(key: Bytes, start: int)
    | SeeWrite(primary: Bytes)                                  // the newest write record of a primary
    | SettleForward(key: Bytes, start: int, primary: Bytes, commit: int)
    | Deliver(command: Command, now: int)

  function RowOf(w: World, key: Bytes): Row {
    if key in w.rows then w.rows[key] else EMPTY_ROW
  }

  predicate Wrote(w: World, key: Bytes, start: int, commit: int) {
    commit >= 0 && commit as nat in RowOf(w, key).writes && RowOf(w, key).writes[commit as nat] == start
  }

  predicate Harmless(c: Command) {
    c.Rollback? || c.CleanLock? || c.Delete? || (c.Set? && c.writtenBy == None)
  }

  predicate Enabled(w: World, s: Step) {
    match s
    case Begin(start, _) => start !in w.primaries
    case SendPrewrite(start, _, _) => start in w.primaries
    case DrawCommit(start, commit) =>
      start in w.primaries && start !in w.commits && commit !in w.commits.Values
    case SendPrimary(start) => start in w.primaries && start in w.commits
    case Acknowledge(start) =>
      start in w.primaries && start in w.commits && Wrote(w, w.primaries[start], start, w.commits[start])
    case SendSecondary(start, _) => start in w.acknowledged && start in w.commits
    case SendOther(c) => Harmless(c)
    case SeeLock(key, start) => start >= 0 && start as nat in RowOf(w, key).locks
    case SeeWrite(primary) => Newest(RowOf(w, primary).writes).Some?
    case SettleForward(key, start, primary, commit) =>
      (key, start, primary) in w.locksSeen && (primary, start, commit) in w.writesSeen
    case Deliver(c, _) => c in w.sent && Keyed(c)
  }

  function Next(w: World, s: Step): World
    requires Enabled(w, s)
  {
    match s
    case Begin(start, primary) => w.(primaries := w.primaries[start := primary])
    case SendPrewrite(start, key, value) =>
      w.(sent := w.sent + {Prewrite(key, value, start, w.primaries[start])})
    case DrawCommit(start, commit) => w.(commits := w.commits[start := commit])
    case SendPrimary(start) => w.(sent := w.sent + {Commit(w.primaries[start], start, w.commits[start])})
    case Acknowledge(start) => w.(acknowledged := w.acknowledged + {start})
    case SendSecondary(start, key) => w.(sent := w.sent + {Commit(key, start, w.commits[start])})
    case SendOther(c) => w.(sent := w.sent + {c})
    case SeeLock(key, start) =>
      w.(locksSeen := w.locksSeen + {(key, start, RowOf(w, key).locks[start as nat].primary)})
    case SeeWrite(primary) =>
      var c := Newest(RowOf(w, primary).writes).value;
      w.(writesSeen := w.writesSeen + {(primary, RowOf(w, primary).writes[c], c)})
    case SettleForward(key, start, _, commit) => w.(sent := w.sent + {Commit(key, start, commit)})
    case Deliver(c, now) => w.(rows := w.rows[c.key := ApplyRow(RowOf(w, c.key), 0, c, now).row])
  }

  ghost predicate Run(worlds: seq<World>, steps: seq<Step>) {
    && |worlds| == |steps| + 1 && worlds[0] == NEW_WORLD
    && forall i :: 0 <= i < |steps| ==> Enabled(worlds[i], steps[i]) && worlds[i + 1] == Next(worlds[i], steps[i])
  }

  // ---- the invariant --------------------------------------------------------------

  /** A commit of `key` is the primary's own, or comes after it and at its timestamp. */
  ghost predicate Decided(w: World, key: Bytes, start: int, commit: int) {
    && start in w.primaries && start in w.commits && w.commits[start] == commit
    && (key == w.primaries[start] || Wrote(w, w.primaries[start], start, commit))
  }

  ghost predicate RowSound(w: World, key: Bytes) {
    && (forall t :: t in RowOf(w, key).locks ==>
          t in w.primaries && RowOf(w, key).locks[t].primary == w.primaries[t])
    && (forall c :: c in RowOf(w, key).writes ==> Decided(w, key, RowOf(w, key).writes[c], c))
  }

  ghost predicate CommandSound(w: World, c: Command) {
    match c
    case Prewrite(_, _, start, primary) => start in w.primaries && primary == w.primaries[start]
    case Commit(key, start, commit) => Decided(w, key, start, commit)
    case _ => Harmless(c)
  }

  ghost predicate SeenSound(w: World) {
    && (forall l :: l in w.locksSeen ==> l.1 in w.primaries && w.primaries[l.1] == l.2)
    && (forall x :: x in w.writesSeen ==> Wrote(w, x.0, x.1, x.2))
    && (forall s :: s in w.acknowledged ==>
          s in w.primaries && s in w.commits && Wrote(w, w.primaries[s], s, w.commits[s]))
    && (forall s, t :: s in w.commits && t in w.commits && w.commits[s] == w.commits[t] ==> s == t)
  }

  ghost predicate WorldInv(w: World) {
    && (forall k :: RowSound(w, k))
    && (forall c :: c in w.sent ==> CommandSound(w, c))
    && SeenSound(w)
  }

  /** Nothing decided is ever taken back. */
  ghost predicate Later(w: World, w': World) {
    && (forall s :: s in w.primaries ==> s in w'.primaries && w'.primaries[s] == w.primaries[s])
    && (forall s :: s in w.commits ==> s in w'.commits && w'.commits[s] == w.commits[s])
    && (forall k, s, c :: Wrote(w, k, s, c) ==> Wrote(w', k, s, c))
  }

  lemma LaterSound(w: World, w': World)
    requires Later(w, w')
    ensures forall k, s, c :: Decided(w, k, s, c) ==> Decided(w', k, s, c)
    ensures forall c :: CommandSound(w, c) ==> CommandSound(w', c)
  {
  }

  /** A step that sends, draws or looks, and leaves every row alone. */
  lemma QuietKeeps(w: World, w': World)
    requires WorldInv(w) && Later(w, w') && w'.rows == w.rows && SeenSound(w')
    requires forall c :: c in w'.sent && c !in w.sent ==> CommandSound(w', c)
    ensures WorldInv(w')
  {
    LaterSound(w, w');
    forall k ensures RowSound(w', k) {
      assert RowSound(w, k);
    }
  }

  /** What one command can add to its row's write records, or to its locks. */
  lemma RowMoves(row: Row, c: Command, now: int)
    requires Keyed(c) && (Harmless(c) || c.Prewrite? || c.Commit?)
    ensures var after := ApplyRow(row, 0, c, now).row;
            && (forall t :: t in after.locks ==>
                  || (t in row.locks && after.locks[t] == row.locks[t])
                  || (c.Prewrite? && t == c.startTs && after.locks[t].primary == c.primary))
            && (after.writes == row.writes
                || (c.Commit? && ValidTs(c.startTs) && ValidTs(c.commitTs)
                    && after.writes == row.writes[c.commitTs as nat := c.startTs as nat]))
  {
  }

  lemma DeliverLater(w: World, c: Command, now: int)
    requires WorldInv(w) && Enabled(w, Deliver(c, now))
    ensures Later(w, Next(w, Deliver(c, now)))
  {
    hide ApplyRow;
    assert CommandSound(w, c);
    RowMoves(RowOf(w, c.key), c, now);
    var w' := Next(w, Deliver(c, now));
    forall k, s, t | Wrote(w, k, s, t) ensures Wrote(w', k, s, t) {
      if k == c.key && c.Commit? && t == c.commitTs {
        assert RowSound(w, k);
        assert Decided(w, k, s, t);
      }
    }
  }

  lemma DeliverKeeps(w: World, c: Command, now: int)
    requires WorldInv(w) && Enabled(w, Deliver(c, now))
    ensures WorldInv(Next(w, Deliver(c, now)))
  {
    hide ApplyRow;
    var w' := Next(w, Deliver(c, now));
    DeliverLater(w, c, now);
    LaterSound(w, w');
    assert CommandSound(w, c);
    RowMoves(RowOf(w, c.key), c, now);
    forall k ensures RowSound(w', k) {
      assert RowSound(w, k);
    }
  }

  lemma SendKeeps(w: World, c: Command)
    requires WorldInv(w) && CommandSound(w, c)
    ensures WorldInv(w.(sent := w.sent + {c})) && Later(w, w.(sent := w.sent + {c}))
  {
    QuietKeeps(w, w.(sent := w.sent + {c}));
  }

  lemma BeginKeeps(w: World, start: int, primary: Bytes)
    requires WorldInv(w) && start !in w.primaries
    ensures var w' := w.(primaries := w.primaries[start := primary]); WorldInv(w') && Later(w, w')
  {
    QuietKeeps(w, w.(primaries := w.primaries[start := primary]));
  }

  lemma DrawKeeps(w: World, start: int, commit: int)
    requires WorldInv(w) && Enabled(w, DrawCommit(start, commit))
    ensures var w' := w.(commits := w.commits[start := commit]); WorldInv(w') && Later(w, w')
  {
    forall x | x in w.commits ensures w.commits[x] != commit {
      assert w.commits[x] in w.commits.Values;
    }
    QuietKeeps(w, w.(commits := w.commits[start := commit]));
  }

  lemma SeeKeeps(w: World, s: Step)
    requires WorldInv(w) && Enabled(w, s) && (s.SeeLock? || s.SeeWrite? || s.Acknowledge?)
    ensures WorldInv(Next(w, s)) && Later(w, Next(w, s))
  {
    if s.SeeLock? { assert RowSound(w, s.key); }
    QuietKeeps(w, Next(w, s));
  }

  lemma NextKeeps(w: World, s: Step)
    requires WorldInv(w) && Enabled(w, s)
    ensures WorldInv(Next(w, s)) && Later(w, Next(w, s))
  {
    match s
    case Deliver(c, now) => DeliverLater(w, c, now); DeliverKeeps(w, c, now);
    case Begin(start, primary) => BeginKeeps(w, start, primary);
    case DrawCommit(start, commit) => DrawKeeps(w, start, commit);
    case SendPrewrite(start, key, value) => SendKeeps(w, Prewrite(key, value, start, w.primaries[start]));
    case SendPrimary(start) => SendKeeps(w, Commit(w.primaries[start], start, w.commits[start]));
    case SendSecondary(start, key) => SendKeeps(w, Commit(key, start, w.commits[start]));
    case SendOther(c) => SendKeeps(w, c);
    case SettleForward(key, start, primary, commit) =>
      assert RowSound(w, primary);
      SendKeeps(w, Commit(key, start, commit));
    case _ => SeeKeeps(w, s);
  }

  lemma {:induction false} RunKeeps(worlds: seq<World>, steps: seq<Step>, i: nat)
    requires Run(worlds, steps) && i < |worlds|
    ensures WorldInv(worlds[i])
  {
    hide WorldInv, Next, Enabled, Later;
    if i == 0 {
      NewWorldInv();
    } else {
      RunKeeps(worlds, steps, i - 1);
      NextKeeps(worlds[i - 1], steps[i - 1]);
    }
  }

  lemma NewWorldInv()
    ensures WorldInv(NEW_WORLD)
  {
  }

  /** A secondary commits only after its primary did, and at the primary's commit timestamp; and
      one transaction has one commit timestamp, wherever it has committed. */
  lemma PrimaryDecides(worlds: seq<World>, steps: seq<Step>, i: nat, key: Bytes, start: int, commit: int)
    requires Run(worlds, steps) && i < |worlds| && Wrote(worlds[i], key, start, commit)
    ensures var w := worlds[i];
            && start in w.primaries && start in w.commits && w.commits[start] == commit
            && Wrote(w, w.primaries[start], start, commit)
    ensures i > 0 && key != worlds[i].primaries[start] && !Wrote(worlds[i - 1], key, start, commit) ==>
              start in worlds[i - 1].primaries && Wrote(worlds[i - 1], worlds[i - 1].primaries[start], start, commit)
  {
    hide Next, Enabled;
    RunKeeps(worlds, steps, i);
    assert RowSound(worlds[i], key);
    if i > 0 && key != worlds[i].primaries[start] && !Wrote(worlds[i - 1], key, start, commit) {
      RunKeeps(worlds, steps, i - 1);
      NextKeeps(worlds[i - 1], steps[i - 1]);
      JustWrote(worlds[i - 1], steps[i - 1], key, start, commit);
    }
  }

  /** A write record that was not there before was put there by a commit that had been sent. */
  lemma JustWrote(w: World, s: Step, key: Bytes, start: int, commit: int)
    requires WorldInv(w) && Enabled(w, s) && Wrote(Next(w, s), key, start, commit) && !Wrote(w, key, start, commit)
    ensures Decided(w, key, start, commit)
  {
    hide ApplyRow;
    if s.Deliver? {
      assert CommandSound(w, s.command);
      RowMoves(RowOf(w, s.command.key), s.command, s.now);
    }
  }
}
