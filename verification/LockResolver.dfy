/** Settling a lock a transaction left behind, by asking its primary what became of it. */
module LockResolver {
  import opened Common
  import opened Rows
  import Paths
  import P = Percolator

  datatype PrimaryStatus = CommittedAt(commit: nat) | StillPending | GivenUp

  function RemainingTtl(lock: Lock, now: int, ttl: int): int { Max(0, ttl - (now - lock.time)) }

  /** The newest write record decides, if it is the transaction's; then a lock still in its time. */
  function StatusOf(primary: Row, start: nat, now: int, ttl: int): PrimaryStatus {
    var write, lock := Newest(primary.writes), Newest(primary.locks);
    if write.Some? && primary.writes[write.value] == start then CommittedAt(write.value)
    else if lock == Some(start) && RemainingTtl(primary.locks[start], now, ttl) > 0 then StillPending
    else GivenUp
  }

  /** What the resolver does to the table, and whether the lock is then gone. */
  function Resolved(rows: Table, key: Bytes, now: int, ttl: int): (Table, bool) {
    var lock := Newest(At(rows, key).locks);
    if lock.None? then (rows, true)
    else
      var start := lock.value;
      match StatusOf(At(rows, At(rows, key).locks[start].primary), start, now, ttl)
      case StillPending => (rows, false)
      case CommittedAt(commit) =>
        var e := ApplyRow(At(rows, key), 0, Commit(key, start, commit), now);
        (rows[key := e.row], e.code == SUCCESS)
      case GivenUp =>
        var e := ApplyRow(At(rows, key), 0, Rollback(key, start), now);
        (rows[key := e.row], e.code == SUCCESS)
  }

  // ---- as steps of the protocol ---------------------------------------------------

  ghost predicate Steps(w: P.World, w': P.World) {
    exists step :: StepsBy(w, step, w')
  }

  ghost predicate StepsBy(w: P.World, step: P.Step, w': P.World) {
    P.Enabled(w, step) && w' == P.Next(w, step)
  }

  /** Steps of any number of coordinators and resolvers lead from `w` to `w'`. */
  ghost predicate Reaches(w: P.World, w': P.World) { Paths.Reaches(Steps, w, w') }

  /** What has been seen stays seen, and the invariant stays. */
  ghost predicate Onward(w: P.World, w': P.World) {
    w.locksSeen <= w'.locksSeen && w.writesSeen <= w'.writesSeen && (P.WorldInv(w) ==> P.WorldInv(w'))
  }

  lemma {:induction false} ChainOnward(worlds: seq<P.World>)
    requires Paths.Chain(Steps, worlds)
    ensures Onward(worlds[0], worlds[|worlds| - 1])
    decreases |worlds|
  {
    hide P.WorldInv, P.Enabled, P.Next;
    var n := |worlds| - 1;
    if n > 0 {
      ChainOnward(worlds[..n]);
      assert Steps(worlds[n - 1], worlds[n]);
      var step :| StepsBy(worlds[n - 1], step, worlds[n]);
      StepOnward(worlds[n - 1], step);
    }
  }

  lemma StepOnward(w: P.World, step: P.Step)
    requires P.Enabled(w, step)
    ensures Onward(w, P.Next(w, step))
  {
    hide P.WorldInv;
    if P.WorldInv(w) { P.NextKeeps(w, step); }
  }

  lemma ReachesOnward(w: P.World, w': P.World)
    requires Reaches(w, w')
    ensures Onward(w, w')
  {
    hide Onward;
    var worlds :| Paths.ChainBetween(Steps, w, w', worlds);
    ChainOnward(worlds);
  }

  lemma StaysPut(w: P.World)
    ensures Reaches(w, w)
  {
    Paths.ReachesSelf(Steps, w);
  }

  lemma ReachesOn(w: P.World, w1: P.World, w2: P.World)
    requires Reaches(w, w1) && Reaches(w1, w2)
    ensures Reaches(w, w2)
  {
    Paths.ReachesOn(Steps, w, w1, w2);
  }

  lemma TakesStep(w0: P.World, w: P.World, step: P.Step)
    requires Reaches(w0, w) && P.WorldInv(w) && P.Enabled(w, step)
    ensures Reaches(w0, P.Next(w, step)) && P.WorldInv(P.Next(w, step))
  {
    hide P.WorldInv, P.Enabled, P.Next;
    P.NextKeeps(w, step);
    assert StepsBy(w, step, P.Next(w, step));
    Paths.ReachesThen(Steps, w0, w, P.Next(w, step));
  }

  /** A lock seen and a record seen, each at a time of its own, call for a commit of the protocol's. */
  lemma RollsForward(w0: P.World, w: P.World, key: Bytes, start: nat, primary: Bytes, commit: nat, now: int)
    returns (w': P.World)
    requires Reaches(w0, w) && P.WorldInv(w)
    requires (key, start, primary) in w.locksSeen && (primary, start, commit) in w.writesSeen
    ensures var settle := P.SettleForward(key, start, primary, commit);
            var deliver := P.Deliver(Commit(key, start, commit), now);
            w' == P.Next(P.Next(w, settle), deliver)
    ensures w'.rows == w.rows[key := ApplyRow(P.RowOf(w, key), 0, Commit(key, start, commit), now).row]
    ensures Reaches(w0, w') && P.WorldInv(w')
  {
    hide P.WorldInv, ApplyRow, Reaches;
    TakesStep(w0, w, P.SettleForward(key, start, primary, commit));
    var w1 := P.Next(w, P.SettleForward(key, start, primary, commit));
    TakesStep(w0, w1, P.Deliver(Commit(key, start, commit), now));
    w' := P.Next(w1, P.Deliver(Commit(key, start, commit), now));
  }

  lemma RollsBack(w0: P.World, w: P.World, key: Bytes, start: nat, now: int) returns (w': P.World)
    requires Reaches(w0, w) && P.WorldInv(w)
    ensures w' == P.Next(P.Next(w, P.SendOther(Rollback(key, start))), P.Deliver(Rollback(key, start), now))
    ensures w'.rows == w.rows[key := ApplyRow(P.RowOf(w, key), 0, Rollback(key, start), now).row]
    ensures Reaches(w0, w') && P.WorldInv(w')
  {
    hide P.WorldInv, ApplyRow, Reaches;
    TakesStep(w0, w, P.SendOther(Rollback(key, start)));
    var w1 := P.Next(w, P.SendOther(Rollback(key, start)));
    TakesStep(w0, w1, P.Deliver(Rollback(key, start), now));
    w' := P.Next(w1, P.Deliver(Rollback(key, start), now));
  }

  /** A settled lock is gone, whatever else is there. */
  lemma SettledIsGone(row: Row, c: Command, start: nat, now: int)
    requires (c.Commit? || c.Rollback?) && c.startTs == start
    ensures ApplyRow(row, 0, c, now).code == SUCCESS ==> start !in ApplyRow(row, 0, c, now).row.locks
  {
  }

  /** What everyone else does to the cluster before the resolver's next call reaches it. */
  type Others = (nat, P.World) -> P.World

  ghost predicate Protocol(others: Others) {
    forall n, w :: Reaches(w, others(n, w))
  }

  ghost predicate Idle(others: Others) {
    forall n, w :: others(n, w) == w
  }

  class LockResolver {
    var world: P.World                   // the cluster, with all that has been sent and seen
    const ttl: int
    const others: Others

    constructor (world: P.World, ttl: int, others: Others)
      requires P.WorldInv(world) && Protocol(others)
      ensures Valid() && this.world == world && this.ttl == ttl && this.others == others
    {
      this.world, this.ttl, this.others := world, ttl, others;
    }

    ghost predicate Valid()
      reads this
    {
      P.WorldInv(world) && Protocol(others)
    }

    /** The others take whatever steps they like. */
    method Meanwhile(n: nat, ghost w0: P.World)
      requires Valid() && Reaches(w0, world)
      modifies this`world
      ensures Valid() && Reaches(w0, world) && world == others(n, old(world))
      ensures old(world).locksSeen <= world.locksSeen && old(world).writesSeen <= world.writesSeen
    {
      hide P.WorldInv, Reaches;
      var w := world;
      ReachesOnward(w, others(n, w));
      ReachesOn(w0, w, others(n, w));
      world := others(n, w);
    }

    /** What the newest write record of the primary says: the commit timestamp, if it is this
        transaction's. */
    method PrimaryCommitTs(primary: Bytes, start: nat, ghost w0: P.World) returns (commit: Option<nat>)
      requires Valid() && Reaches(w0, world)
      modifies this`world
      ensures Valid() && Reaches(w0, world) && world.rows == old(world).rows
      ensures old(world).locksSeen <= world.locksSeen
      ensures var writes := P.RowOf(world, primary).writes;
              if Newest(writes).Some? && writes[Newest(writes).value] == start then commit == Newest(writes)
              else commit == None
      ensures commit.Some? ==> (primary, start, commit.value) in world.writesSeen
    {
      hide P.WorldInv, Reaches;
      var w := world;
      var writes := P.RowOf(w, primary).writes;
      var write := Newest(writes);
      if write.None? {
        return None;
      }
      TakesStep(w0, w, P.SeeWrite(primary));
      world := P.Next(w, P.SeeWrite(primary));
      commit := if writes[write.value] == start then write else None;
    }

    /** Asks for the lock, asks its primary, asks again for the timestamp, and settles; the others go
        on between any two of these.  All of it are steps of the protocol, so no secondary is committed
        before, or otherwise than, its primary.  True says that the lock that was seen is gone, if any
        was. */
    method ResolveLock(key: Bytes, now: int) returns (gone: bool, ghost seen: Option<nat>)
      requires Valid()
      modifies this`world
      ensures Valid() && Reaches(old(world), world)
      ensures gone && seen.Some? ==> seen.value !in P.RowOf(world, key).locks
      ensures gone && seen.None? ==> P.RowOf(world, key).locks == map[]
      ensures Idle(others) ==> (world.rows, gone) == Resolved(old(world).rows, key, now, ttl)
    {
      hide P.WorldInv, ApplyRow, Reaches, Protocol;
      ghost var w0 := world;
      StaysPut(w0);
      Meanwhile(0, w0);
      var w := world;
      var row := P.RowOf(w, key);
      var lock := Newest(row.locks);
      if lock.None? {
        return true, None;
      }
      var start := lock.value;
      var primary := row.locks[start].primary;
      TakesStep(w0, w, P.SeeLock(key, start));
      world := P.Next(w, P.SeeLock(key, start));
      Meanwhile(1, w0);
      var decided := PrimaryCommitTs(primary, start, w0);
      Meanwhile(2, w0);
      if decided.Some? {
        gone := SettleForward(key, start, primary, now, w0);
      } else {
        gone := SettleBack(key, start, primary, now, w0);
      }
      seen := Some(start);
    }

    method SettleForward(key: Bytes, start: nat, primary: Bytes, now: int, ghost w0: P.World) returns (gone: bool)
      requires Valid() && Reaches(w0, world) && (key, start, primary) in world.locksSeen
      modifies this`world
      ensures Valid() && Reaches(w0, world)
      ensures gone ==> start !in P.RowOf(world, key).locks
      ensures Idle(others) ==>
                var writes := P.RowOf(old(world), primary).writes;
                Newest(writes).Some? && writes[Newest(writes).value] == start ==>
                  var e := ApplyRow(P.RowOf(old(world), key), 0, Commit(key, start, Newest(writes).value), now);
                  world.rows == old(world).rows[key := e.row] && gone == (e.code == SUCCESS)
    {
      hide P.WorldInv, ApplyRow, Reaches, Protocol;
      var commit := PrimaryCommitTs(primary, start, w0);
      if commit.None? {
        return false;
      }
      Meanwhile(3, w0);
      var w := world;
      var e := ApplyRow(P.RowOf(w, key), 0, Commit(key, start, commit.value), now);
      SettledIsGone(P.RowOf(w, key), Commit(key, start, commit.value), start, now);
      ghost var w' := RollsForward(w0, w, key, start, primary, commit.value, now);
      world := P.Next(P.Next(w, P.SettleForward(key, start, primary, commit.value)),
                      P.Deliver(Commit(key, start, commit.value), now));
      gone := e.code == SUCCESS;
    }

    method SettleBack(key: Bytes, start: nat, primary: Bytes, now: int, ghost w0: P.World) returns (gone: bool)
      requires Valid() && Reaches(w0, world)
      modifies this`world
      ensures Valid() && Reaches(w0, world)
      ensures gone ==> start !in P.RowOf(world, key).locks
      ensures Idle(others) ==>
                var locks := P.RowOf(old(world), primary).locks;
                if Newest(locks) == Some(start) && RemainingTtl(locks[start], now, ttl) > 0 then
                  world.rows == old(world).rows && !gone
                else
                  var e := ApplyRow(P.RowOf(old(world), key), 0, Rollback(key, start), now);
                  world.rows == old(world).rows[key := e.row] && gone == (e.code == SUCCESS)
    {
      hide P.WorldInv, ApplyRow, Reaches, Protocol;
      var locks := P.RowOf(world, primary).locks;
      if Newest(locks) == Some(start) && RemainingTtl(locks[start], now, ttl) > 0 {
        return false;
      }
      Meanwhile(3, w0);
      var w := world;
      var e := ApplyRow(P.RowOf(w, key), 0, Rollback(key, start), now);
      SettledIsGone(P.RowOf(w, key), Rollback(key, start), start, now);
      ghost var w' := RollsBack(w0, w, key, start, now);
      world := P.Next(P.Next(w, P.SendOther(Rollback(key, start))), P.Deliver(Rollback(key, start), now));
      gone := e.code == SUCCESS;
    }
  }

  /** The newest write record of the primary is the transaction's. */
  predicate Committed(primary: Row, start: nat) {
    exists c :: c in primary.writes && primary.writes[c] == start && forall d :: d in primary.writes ==> d <= c
  }

  /** The newest lock of the primary is the transaction's, and was taken less than `ttl` ago. */
  predicate Alive(primary: Row, start: nat, now: int, ttl: int) {
    && start in primary.locks && (forall l :: l in primary.locks ==> l <= start)
    && now - primary.locks[start].time < ttl
  }

  lemma StatusIff(primary: Row, start: nat, now: int, ttl: int)
    ensures var s := StatusOf(primary, start, now, ttl);
            && (s.CommittedAt? <==> Committed(primary, start))
            && (s.CommittedAt? ==> s.commit in primary.writes && primary.writes[s.commit] == start
                                   && forall d :: d in primary.writes ==> d <= s.commit)
            && (s.StillPending? <==> !Committed(primary, start) && Alive(primary, start, now, ttl))
  {
    var write, lock := Newest(primary.writes), Newest(primary.locks);
    if write.Some? { assert write.value in primary.writes; }
    if lock.Some? { assert lock.value in primary.locks; }
  }

  /** With one lock on the key and its timestamps in range, the lock is gone exactly when its
      transaction has committed or is no longer alive: its value is then published at the primary's
      commit timestamp if the primary's newest write record is the transaction's, and nothing is
      published if it is not. */
  lemma SettlesByPrimary(rows: Table, key: Bytes, start: nat, now: int, ttl: int)
    requires ValidKey(key) && At(rows, key).locks.Keys == {start} && ValidTs(start)
    requires var p := At(rows, At(rows, key).locks[start].primary); forall c :: c in p.writes ==> ValidTs(c)
    ensures var row := At(rows, key);
            var primary := At(rows, row.locks[start].primary);
            var (rows', gone) := Resolved(rows, key, now, ttl);
            && (gone <==> Committed(primary, start) || !Alive(primary, start, now, ttl))
            && (gone <==> At(rows', key).locks == map[])
            && (!gone ==> At(rows', key) == row)
            && (forall c :: c in primary.writes && primary.writes[c] == start
                            && (forall d :: d in primary.writes ==> d <= c) ==>
                  At(rows', key) ==
                  Row(row.versions[c := Value(row.locks[start].value)], row.writes[c := start], map[]))
            && (gone && !Committed(primary, start) ==> At(rows', key) == row.(locks := map[]))
            && (forall k :: k != key ==> At(rows', k) == At(rows, k))
  {
    var row := At(rows, key);
    assert Newest(row.locks) == Some(start) by { assert Newest(row.locks).value in row.locks.Keys; }
    assert row.locks - {start} == map[];
    StatusIff(At(rows, row.locks[start].primary), start, now, ttl);
    hide StatusOf;
  }

  /** Only the newest record is looked at: once another transaction has committed the primary, a
      lock of one that committed before it is rolled back. */
  lemma OlderCommitForgotten(now: int, ttl: int)
    ensures var lock := Lock([1], 0, [7]);
            var primary := Row(map[10 := Value([7]), 20 := Value([8])], map[10 := 5, 20 := 15], map[]);
            var rows: Table := map[[1] := primary, [2] := Row(map[], map[], map[5 := lock])];
            Resolved(rows, [2], now, ttl).0 == rows[[2] := EMPTY_ROW]
  {
    var lock := Lock([1], 0, [7]);
    var primary := Row(map[10 := Value([7]), 20 := Value([8])], map[10 := 5, 20 := 15], map[]);
    var one: Bytes, two: Bytes := [1], [2];
    assert one[0] != two[0];
    var rows: Table := map[one := primary, two := Row(map[], map[], map[5 := lock])];
    assert 20 in primary.writes && Newest(primary.writes).value == 20;
    assert 5 in At(rows, two).locks && Newest(At(rows, two).locks) == Some(5);
    assert map[5 := lock] - {5} == map[];
    assert primary.locks == map[] && Newest(primary.locks) == None;
    assert At(rows, [1]) == primary;
    assert StatusOf(primary, 5, now, ttl) == GivenUp;
    assert ApplyRow(At(rows, two), 0, Rollback(two, 5), now).row == EMPTY_ROW;
  }
}
