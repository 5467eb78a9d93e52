/** When each command of a row succeeds, and what a reader then finds. */
module RowLaws {
  import opened Common
  import opened Rows
  import opened Shards

  // ---- reading --------------------------------------------------------------------

  /** The version at `ts` is the newest that is no later than `t`. */
  ghost predicate NewestBy(row: Row, t: int, ts: nat) {
    ts in row.versions && ts <= t && forall u :: u in row.versions && u <= t ==> u <= ts
  }

  /** What is visible at `t` is the newest version no later than `t`, and nothing when that one is a
      tombstone or there is none. */
  lemma VisibleIff(row: Row, t: int, value: Bytes, ts: nat)
    ensures VisibleAt(row, t) == Some((value, ts)) <==> NewestBy(row, t, ts) && row.versions[ts] == Value(value)
    ensures VisibleAt(row, t) == None <==> forall u: nat :: NewestBy(row, t, u) ==> row.versions[u].Tombstone?
  {
    var below := AtMost(row.versions, t);
    var newest := Newest(below);
    if newest.Some? {
      forall u | u in row.versions && u <= t ensures u <= newest.value {
        assert u in below;
      }
      assert NewestBy(row, t, newest.value);
    }
    forall u: nat | NewestBy(row, t, u) ensures newest == Some(u) {
      assert u in below;
    }
  }

  /** A read is refused exactly for a lock, when it has no timestamp or all locks are older; one
      whose own lock is the newest reads that; and any other finds what is visible. */
  lemma ReadIff(row: Row, timestamp: Option<int>, last: nat)
    ensures Read(row, timestamp, last).Blocked? <==>
            row.locks != map[] && (timestamp.Some? ==> forall l :: l in row.locks ==> l < timestamp.value)
    ensures forall l :: l in row.locks && timestamp == Some(l) && (forall m :: m in row.locks ==> m <= l) ==>
              Read(row, timestamp, last) == Found(Some(row.locks[l].value), 0)
    ensures (forall l :: l in row.locks ==> timestamp != None && exists m :: m in row.locks && m > timestamp.value) ==>
              var v := VisibleAt(row, if timestamp.Some? then timestamp.value else last);
              Read(row, timestamp, last) == if v.None? then Found(None, 0) else Found(Some(v.value.0), v.value.1)
  {
    var lock := Newest(row.locks);
    if lock.Some? {
      assert lock.value in row.locks;
    }
  }

  // ---- writing --------------------------------------------------------------------

  predicate NothingBetween(row: Row, t: nat, u: int) { forall v :: v in row.versions && t < v ==> u < v }

  /** Every read from `t` up to the next version finds `cell`, and every other what it did. */
  ghost predicate ShowsFrom(row: Row, row': Row, t: nat, cell: Cell) {
    forall u: int ::
      VisibleAt(row', u) ==
      if t <= u && NothingBetween(row, t, u) then (if cell.Tombstone? then None else Some((cell.bytes, t)))
      else VisibleAt(row, u)
  }

  lemma VersionShows(row: Row, t: nat, cell: Cell)
    requires ValidTs(t)
    ensures ShowsFrom(row, SetVersion(row, t, cell), t, cell)
  {
    var row' := SetVersion(row, t, cell);
    forall u: int
      ensures VisibleAt(row', u) ==
              if t <= u && NothingBetween(row, t, u) then (if cell.Tombstone? then None else Some((cell.bytes, t)))
              else VisibleAt(row, u)
    {
      VersionShowsAt(row, t, cell, u);
    }
  }

  lemma VersionShowsAt(row: Row, t: nat, cell: Cell, u: int)
    requires ValidTs(t)
    ensures VisibleAt(SetVersion(row, t, cell), u) ==
            if t <= u && NothingBetween(row, t, u) then (if cell.Tombstone? then None else Some((cell.bytes, t)))
            else VisibleAt(row, u)
  {
    var row' := SetVersion(row, t, cell);
    var old_, new_ := AtMost(row.versions, u), AtMost(row'.versions, u);
    if u < t {
      assert new_ == old_;
    } else if NothingBetween(row, t, u) {
      assert t in new_;
      assert Newest(new_) == Some(t);
    } else {
      var v :| v in row.versions && t < v <= u;
      assert v in old_ && Newest(old_).value >= v;
      var n := Newest(new_).value;
      assert Newest(old_).value in new_;
      assert n >= v > t;
      assert n in old_;
    }
  }

  /** A SET at `t` is found from `t` on, and leaves locks and older reads alone. */
  lemma SetIff(row: Row, last: nat, c: Command, now: int)
    requires c.Set?
    ensures var e := ApplyRow(row, last, c, now);
            var t := if c.timestamp.Some? then c.timestamp.value else last + 1;
            && (e.code == SUCCESS <==>
                  ValidKey(c.key) && ValidTs(t) && (c.writtenBy.Some? ==> ValidTs(c.writtenBy.value)))
            && (if ValidKey(c.key) && ValidTs(t) then ShowsFrom(row, e.row, t as nat, Value(c.value)) else e.row == row)
            && e.row.locks == row.locks
            && (e.code == SUCCESS ==>
                  && e.last == Max(last, t)
                  && (c.writtenBy.None? ==> e.row.writes == row.writes)
                  && (c.writtenBy.Some? ==> e.row.writes == row.writes[t as nat := c.writtenBy.value as nat]))
            && (e.code != SUCCESS ==> e.code == APPLY_ERROR && e.last == last && e.row.writes == row.writes)
  {
    var t := if c.timestamp.Some? then c.timestamp.value else last + 1;
    if ValidKey(c.key) && ValidTs(t) {
      VersionShows(row, t as nat, Value(c.value));
      SameShown(row, SetVersion(row, t, Value(c.value)), ApplyRow(row, last, c, now).row, t as nat, Value(c.value));
    }
  }

  lemma SameShown(row: Row, a: Row, b: Row, t: nat, cell: Cell)
    requires ShowsFrom(row, a, t, cell) && a.versions == b.versions
    ensures ShowsFrom(row, b, t, cell)
  {
    forall u: int ensures VisibleAt(b, u) == VisibleAt(a, u) {
    }
  }

  /** A DELETE at `t` is found from `t` on. */
  lemma DeleteIff(row: Row, last: nat, c: Command, now: int)
    requires c.Delete?
    ensures var e := ApplyRow(row, last, c, now);
            var t := if c.timestamp.Some? then c.timestamp.value else last + 1;
            && (e.code == SUCCESS <==> ValidKey(c.key) && ValidTs(t))
            && (e.code == SUCCESS ==>
                  && ShowsFrom(row, e.row, t as nat, Tombstone) && e.last == Max(last, t)
                  && e.row.locks == row.locks && e.row.writes == row.writes)
            && (e.code != SUCCESS ==> e == Effect(APPLY_ERROR, row, last))
  {
    var t := if c.timestamp.Some? then c.timestamp.value else last + 1;
    if ValidTs(t) { VersionShows(row, t as nat, Tombstone); }
  }

  // ---- transactions ---------------------------------------------------------------

  /** The row has no write record and no version above `t`. */
  ghost predicate NothingAbove(row: Row, t: int) {
    (forall u :: u in row.writes ==> u <= t) && (forall u :: u in row.versions ==> u <= t)
  }

  lemma AboveNewest(row: Row, t: int)
    ensures var write, version := Newest(row.writes), Newest(row.versions);
            NothingAbove(row, t) <==> (write.Some? ==> write.value <= t) && (version.Some? ==> version.value <= t)
  {
    var write, version := Newest(row.writes), Newest(row.versions);
    if write.Some? { assert write.value in row.writes; }
    if version.Some? { assert version.value in row.versions; }
  }

  /** A prewrite locks the row if and only if nobody has it locked and nothing was written after the
      start, by a transaction or not; the first of these that fails gives the code. */
  lemma PrewriteIff(row: Row, last: nat, c: Command, now: int)
    requires c.Prewrite?
    ensures var e := ApplyRow(row, last, c, now);
            var free := row.locks == map[];
            var clear := NothingAbove(row, c.startTs);
            && (e.code == SUCCESS <==> ValidKey(c.key) && free && clear && ValidTs(c.startTs))
            && (e.code == LOCKED <==> ValidKey(c.key) && !free)
            && (e.code == WRITE_CONFLICT <==> ValidKey(c.key) && free && !clear)
            && (e.code == APPLY_ERROR <==> !ValidKey(c.key) || (free && clear && !ValidTs(c.startTs)))
            && (e.code == SUCCESS ==>
                  e.row == row.(locks := map[c.startTs as nat := Lock(c.primary, now, c.value)]))
            && (e.code != SUCCESS ==> e.row == row) && e.last == last
  {
    AboveNewest(row, c.startTs);
  }

  /** A commit goes through if and only if the row holds the transaction's lock; the locked value is
      then found from the commit timestamp on, and the lock is gone. */
  lemma CommitIff(row: Row, last: nat, c: Command, now: int)
    requires c.Commit?
    ensures var e := ApplyRow(row, last, c, now);
            var held := ValidTs(c.startTs) && c.startTs as nat in row.locks;
            && (e.code == SUCCESS <==> ValidKey(c.key) && held && ValidTs(c.commitTs))
            && (e.code == NO_LOCK <==> ValidKey(c.key) && ValidTs(c.startTs) && row.locks == map[])
            && (e.code == TIMESTAMP_MISMATCH <==>
                  ValidKey(c.key) && ValidTs(c.startTs) && !held && row.locks != map[])
            && (e.code == SUCCESS ==>
                  var t := c.commitTs as nat;
                  && ShowsFrom(row, e.row, t, Value(row.locks[c.startTs as nat].value)) && e.last == Max(last, t)
                  && e.row.writes == row.writes[t := c.startTs as nat]
                  && e.row.locks == row.locks - {c.startTs as nat})
            && (e.code != SUCCESS ==> e.row == row && e.last == last)
  {
    var e := ApplyRow(row, last, c, now);
    if e.code == SUCCESS {
      var t, cell := c.commitTs as nat, Value(row.locks[c.startTs as nat].value);
      VersionShows(row, t, cell);
      SameShown(row, SetVersion(row, t, cell), e.row, t, cell);
    }
    assert row.locks == map[] ==> forall s :: s !in row.locks;
  }

  /** A rollback fails only on another transaction's lock; after any other the transaction holds
      none, and nothing else has changed. */
  lemma RollbackIff(row: Row, last: nat, c: Command, now: int)
    requires c.Rollback?
    ensures var e := ApplyRow(row, last, c, now);
            && (e.code == SUCCESS <==>
                  ValidKey(c.key) && ValidTs(c.startTs) && (row.locks == map[] || c.startTs as nat in row.locks))
            && (e.code == SUCCESS ==> e.row == row.(locks := row.locks - {c.startTs as nat}))
            && (e.code != SUCCESS ==> e.row == row) && e.last == last
  {
    var e := ApplyRow(row, last, c, now);
    if e.code == SUCCESS && row.locks == map[] {
      assert row.locks - {c.startTs as nat} == row.locks;
    }
  }

  /** The newest of the locks, if it is the one meant or any is. */
  ghost predicate Cleans(row: Row, c: Command, l: nat)
    requires c.CleanLock?
  {
    && ValidKey(c.key) && l in row.locks && (forall m :: m in row.locks ==> m <= l)
    && (c.lockTs == None || c.lockTs.value == l)
  }

  /** A CLEAN_LOCK takes off that one lock and nothing else. */
  lemma CleanLockIff(row: Row, last: nat, c: Command, now: int)
    requires c.CleanLock?
    ensures var e := ApplyRow(row, last, c, now);
            && (e.code == SUCCESS <==> ValidKey(c.key)) && e.last == last
            && e.row == row.(locks := e.row.locks)
            && (forall l: nat :: l in e.row.locks <==> l in row.locks && !Cleans(row, c, l))
            && (forall l :: l in e.row.locks ==> e.row.locks[l] == row.locks[l])
  {
    var lock := Newest(row.locks);
    if lock.Some? { assert lock.value in row.locks; }
  }

  // ---- what a freeze lets through -------------------------------------------------

  /** There is something the command could write. */
  predicate Writable(c: Command)
    requires Keyed(c)
  {
    match c
    case Set(key, _, timestamp, _) => ValidKey(key) && (timestamp.Some? ==> ValidTs(timestamp.value))
    case Delete(key, timestamp) => ValidKey(key) && (timestamp.Some? ==> ValidTs(timestamp.value))
    case Prewrite(key, _, startTs, _) => ValidKey(key) && ValidTs(startTs)
    case _ => true
  }

  ghost predicate LeavesUnlocked(c: Command)
    requires Keyed(c)
  {
    forall row: Row, last: nat, now: int :: row.locks == map[] ==> ApplyRow(row, last, c, now).row == row
  }

  /** A freeze refuses exactly the commands that change some row without a lock: no less, or the copy
      would miss a row, and no more, or a transaction in flight could not end. */
  lemma FreezeIff(c: Command)
    requires Keyed(c) && Writable(c)
    ensures WritesNewData(c) <==> !LeavesUnlocked(c)
  {
    if WritesNewData(c) {
      var row := ApplyRow(EMPTY_ROW, 0, c, 0).row;
      if c.Prewrite? {
        PrewriteIff(EMPTY_ROW, 0, c, 0);
        assert c.startTs as nat in row.locks;
      } else {
        var t := if c.timestamp.Some? then c.timestamp.value else 1;
        assert t as nat in row.versions;
      }
      assert row != EMPTY_ROW;
    } else {
      forall row: Row, last: nat, now: int | row.locks == map[] ensures ApplyRow(row, last, c, now).row == row {
        FinishesNothing(row, last, c, now);
      }
    }
  }

  // ---- over a log -----------------------------------------------------------------

  lemma NothingForgotten(s: Shard, c: Command, now: int, key: Bytes)
    ensures RowOf(s, key).versions.Keys <= RowOf(Apply(s, c, now).0, key).versions.Keys
    ensures RowOf(s, key).writes.Keys <= RowOf(Apply(s, c, now).0, key).writes.Keys
  {
  }

  lemma {:induction false} StillHeld(log: seq<Command>, clock: seq<int>, key: Bytes, k: nat, i: nat)
    requires |clock| == |log| && k <= i <= |log|
    ensures var a, b := RowOf(Replay(EMPTY_SHARD, log[..k], clock[..k]), key),
                        RowOf(Replay(EMPTY_SHARD, log[..i], clock[..i]), key);
            a.versions.Keys <= b.versions.Keys && a.writes.Keys <= b.writes.Keys
    decreases i
  {
    hide Apply;
    if k < i {
      StillHeld(log, clock, key, k, i - 1);
      assert log[..i][..i - 1] == log[..i - 1] && clock[..i][..i - 1] == clock[..i - 1];
      NothingForgotten(Replay(EMPTY_SHARD, log[..i - 1], clock[..i - 1]), log[i - 1], clock[i - 1], key);
    }
  }

  /** Over every log: a prewrite that succeeds started no earlier than anything the key ever held,
      committed by a transaction or written plainly. */
  lemma PrewriteSeesAll(log: seq<Command>, clock: seq<int>, k: nat, i: nat, t: nat)
    requires |clock| == |log| && k <= i < |log| && log[i].Prewrite?
    requires Apply(Replay(EMPTY_SHARD, log[..i], clock[..i]), log[i], clock[i]).1 == SUCCESS
    requires var row := RowOf(Replay(EMPTY_SHARD, log[..k], clock[..k]), log[i].key);
             t in row.versions || t in row.writes
    ensures t <= log[i].startTs
  {
    StillHeld(log, clock, log[i].key, k, i);
    var s := Replay(EMPTY_SHARD, log[..i], clock[..i]);
    PrewriteIff(RowOf(s, log[i].key), s.last, log[i], clock[i]);
  }
}
