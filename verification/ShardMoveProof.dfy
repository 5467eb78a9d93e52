/** No run of a move loses an acknowledged row, or lets both groups take new ones. */
module ShardMoveProof {
  import opened Common
  import opened ByteOrder
  import opened Rows
  import opened Shards
  import R = Routing
  import opened ShardMove

  // ---- rows -----------------------------------------------------------------------

  /** One command leaves a row's versions alone, or writes one of them. */
  lemma VersionStep(row: Row, last: nat, x: Command, now: int) returns (t: nat, cell: Cell)
    requires Keyed(x)
    ensures var after := ApplyRow(row, last, x, now).row;
            after.versions == row.versions || (ValidTs(t) && after.versions == row.versions[t := cell])
  {
    t, cell := 0, Tombstone;
    match x
    case Set(_, value, timestamp, _) =>
      var ts := if timestamp.Some? then timestamp.value else last + 1;
      if ValidTs(ts) { t, cell := ts as nat, Value(value); }
    case Delete(_, timestamp) =>
      var ts := if timestamp.Some? then timestamp.value else last + 1;
      if ValidTs(ts) { t := ts as nat; }
    case Commit(_, startTs, commitTs) =>
      if ValidTs(startTs) && startTs as nat in row.locks && ValidTs(commitTs) {
        t, cell := commitTs as nat, Value(row.locks[startTs as nat].value);
      }
    case _ =>
  }

  lemma NewestOne<T>(m: map<nat, T>, t: nat)
    requires t in m && forall u :: u in m ==> u <= t
    ensures Newest(m) == Some(t)
  {
    assert Newest(m).value >= t;
  }

  lemma NothingAdded(row: Row, after: Row)
    requires after.versions == row.versions
    ensures Added(row, after) == None
  {
    var gained := map t | t in after.versions && (t !in row.versions || row.versions[t] != after.versions[t])
                    :: after.versions[t];
    assert gained == map[];
  }

  lemma OneAdded(row: Row, after: Row, t: nat, cell: Cell)
    requires after.versions == row.versions[t := cell] && after.versions != row.versions
    ensures Added(row, after) == Some((t, cell))
  {
    var gained := map u | u in after.versions && (u !in row.versions || row.versions[u] != after.versions[u])
                    :: after.versions[u];
    assert t in row.versions ==> row.versions == row.versions[t := row.versions[t]];
    NewestOne(gained, t);
  }

  /** The newest of two acknowledged versions, the later one of equals. */
  function NewerOf(truth: Option<(nat, Cell)>, t: nat, cell: Cell): Option<(nat, Cell)> {
    if truth.Some? && t < truth.value.0 then truth else Some((t, cell))
  }

  lemma VisibleNewest(row: Row, t: nat)
    requires t in row.versions && ValidTs(t) && forall u :: u in row.versions ==> u <= t
    ensures NewestVisible(row) == VisibleOf(Some((t, row.versions[t])))
  {
    var seen := AtMost(row.versions, MAX_TS);
    assert t in seen;
    NewestOne(seen, t);
  }

  lemma NothingVisible(row: Row)
    requires NewestVisible(row) == None && forall u :: u in row.versions ==> ValidTs(u)
    ensures row.versions == map[] || (Newest(row.versions).Some? && row.versions[Newest(row.versions).value].Tombstone?)
  {
    if row.versions != map[] { VisibleNewest(row, Newest(row.versions).value); }
  }

  /** A row that shows a value holds it. */
  lemma ShownIsHeld(row: Row, truth: Option<(nat, Cell)>)
    requires Shows(row, truth) && truth.Some? && truth.value.1.Value?
    ensures truth.value.0 in row.versions && row.versions[truth.value.0] == truth.value.1
  {
  }

  /** A write shows as it should if and only if it does not come out from under a deletion that the
      row does not hold. */
  lemma WrittenShowsIff(row: Row, truth: Option<(nat, Cell)>, after: Row, t: nat, cell: Cell)
    requires Shows(row, truth) && after.versions == row.versions[t := cell] && ValidTs(t)
    ensures Shows(after, NewerOf(truth, t, cell)) <==> !Unburies(row, truth, t, cell)
  {
    hide NewestVisible;
    if truth.None? || t >= truth.value.0 {
      VisibleNewest(after, t);
    } else if truth.value.0 in row.versions {
      VisibleNewest(row, truth.value.0);
      VisibleNewest(after, truth.value.0);
    } else {
      if truth.value.1.Value? { ShownIsHeld(row, truth); }
      if forall u :: u in row.versions ==> u <= t {
        VisibleNewest(after, t);
      } else {
        NothingVisible(row);
        var n := Newest(row.versions).value;
        VisibleNewest(after, n);
      }
    }
  }

  lemma SameVersionsShow(row: Row, truth: Option<(nat, Cell)>, after: Row)
    requires Shows(row, truth) && after.versions == row.versions
    ensures Shows(after, truth)
  {
  }

  // ---- writes to the serving group ------------------------------------------------

  lemma ElsewhereSame(s: Shard, x: Command, now: int, k: Bytes)
    requires Keyed(x) && k != x.key
    ensures RowOf(Apply(s, x, now).0, k) == RowOf(s, k)
  {
  }

  lemma AppliedRow(s: Shard, x: Command, now: int)
    requires Keyed(x)
    ensures RowOf(Apply(s, x, now).0, x.key) == ApplyRow(RowOf(s, x.key), s.last, x, now).row
  {
  }

  /** What a command makes of the newest version acknowledged for its key. */
  lemma AcknowledgedIs(truth: map<Bytes, (nat, Cell)>, s: Shard, x: Command, now: int) returns (t: nat, cell: Cell)
    requires Keyed(x)
    ensures var after := Apply(s, x, now).0;
            var row, row' := RowOf(s, x.key), RowOf(after, x.key);
            && (row'.versions == row.versions ==>
                  Added(row, row') == None && Acknowledged(truth, s, after, x.key) == truth)
            && (row'.versions != row.versions ==>
                  && ValidTs(t) && row'.versions == row.versions[t := cell] && Added(row, row') == Some((t, cell))
                  && TruthOf(Acknowledged(truth, s, after, x.key), x.key) == NewerOf(TruthOf(truth, x.key), t, cell))
  {
    hide ApplyRow, Added;
    var after := Apply(s, x, now).0;
    AppliedRow(s, x, now);
    var row, row' := RowOf(s, x.key), RowOf(after, x.key);
    t, cell := VersionStep(row, s.last, x, now);
    if row'.versions == row.versions {
      NothingAdded(row, row');
    } else {
      OneAdded(row, row', t, cell);
    }
  }

  lemma OthersAcknowledged(truth: map<Bytes, (nat, Cell)>, before: Shard, after: Shard, key: Bytes, k: Bytes)
    requires k != key
    ensures TruthOf(Acknowledged(truth, before, after, key), k) == TruthOf(truth, k)
  {
  }

  /** A group goes on showing the newest version of every key, through a write, if and only if the
      write is not to a key whose deletion it does not hold and from under that deletion. */
  lemma WriteShowsIff(s: Shard, truth: map<Bytes, (nat, Cell)>, x: Command, now: int, k: Bytes)
    requires Keyed(x) && Shows(RowOf(s, k), TruthOf(truth, k))
    ensures var after := Apply(s, x, now).0;
            var added := Added(RowOf(s, x.key), RowOf(after, x.key));
            Shows(RowOf(after, k), TruthOf(Acknowledged(truth, s, after, x.key), k)) <==>
            !(k == x.key && added.Some? && Unburies(RowOf(s, k), TruthOf(truth, k), added.value.0, added.value.1))
  {
    hide ApplyRow, Shows, Added, Unburies, Acknowledged, Apply;
    var after := Apply(s, x, now).0;
    if k != x.key {
      ElsewhereSame(s, x, now, k);
      OthersAcknowledged(truth, s, after, x.key, k);
    } else {
      var t, cell := AcknowledgedIs(truth, s, x, now);
      if RowOf(after, k).versions == RowOf(s, k).versions {
        SameVersionsShow(RowOf(s, k), TruthOf(truth, k), RowOf(after, k));
      } else {
        WrittenShowsIff(RowOf(s, k), TruthOf(truth, k), RowOf(after, k), t, cell);
      }
    }
  }

  /** A frozen group with no locks in the range changes nothing of it. */
  lemma FrozenWrite(c: Config, s: Shard, truth: map<Bytes, (nat, Cell)>, x: Command, now: int)
    requires Keyed(x) && !WritesNewData(x) && NoLocks(c, s)
    ensures var after := Apply(s, x, now).0;
            && (forall k :: Moved(c, k) ==> RowOf(after, k) == RowOf(s, k))
            && NoLocks(c, after)
            && (Moved(c, x.key) ==> Acknowledged(truth, s, after, x.key) == truth)
            && (forall k :: Moved(c, k) ==> TruthOf(Acknowledged(truth, s, after, x.key), k) == TruthOf(truth, k))
  {
    hide ApplyRow, Added, InRange;
    var after := Apply(s, x, now).0;
    AppliedRow(s, x, now);
    if Moved(c, x.key) {
      FinishesNothing(RowOf(s, x.key), s.last, x, now);
      NothingAdded(RowOf(s, x.key), RowOf(after, x.key));
    }
    forall k | Moved(c, k) ensures RowOf(after, k) == RowOf(s, k) {
      if k != x.key { ElsewhereSame(s, x, now, k); }
    }
  }

  lemma ServingWrite(c: Config, w: World, x: Command, now: int, s: Shard, copied: bool)
    requires Keyed(x) && (Moved(c, x.key) ==> SafeWrite(w, s, x, now, copied))
    requires forall k :: Moved(c, k) ==> Shows(RowOf(s, k), TruthOf(w.truth, k))
    ensures var after := Apply(s, x, now).0;
            forall k :: Moved(c, k) ==> Shows(RowOf(after, k), TruthOf(Acknowledged(w.truth, s, after, x.key), k))
  {
    hide Shows, Moved, Apply, Acknowledged, Added, Unburies, MayBeUndone;
    forall k | Moved(c, k)
      ensures var after := Apply(s, x, now).0;
              Shows(RowOf(after, k), TruthOf(Acknowledged(w.truth, s, after, x.key), k))
    {
      WriteShowsIff(s, w.truth, x, now, k);
    }
  }

  lemma WriteSourceKeeps(c: Config, w: World, x: Command, now: int)
    requires MoveInv(c, w) && Enabled(c, w, WriteSource(x, now)) && Safe(c, w, WriteSource(x, now))
    ensures MoveInv(c, Next(c, w, WriteSource(x, now)))
  {
    hide SafeWrite, Shows, Moved, OnlyCopies, Across, IsCopy, Harmless, Acknowledged;
    var w' := Next(c, w, WriteSource(x, now));
    if w.frozen && w.note {
      FrozenWrite(c, w.source, w.truth, x, now);
      CopiesSame(c, w, w');
    } else {
      ServingWrite(c, w, x, now, w.source, false);
      NoCopies(c, w');
    }
  }

  /** Nothing has been copied before the note is written. */
  lemma NoCopies(c: Config, w: World)
    requires ConfigSound(c) && NamesSource(c, w) && w.copies == {} && w.target == EMPTY_SHARD && !w.phase.Copying?
    requires Hopeless(c, w)
    ensures CopiesSound(c, w)
  {
  }

  /** The copies say the same of a source whose rows in the range are what they were. */
  lemma CopiesSame(c: Config, w: World, w': World)
    requires CopiesSound(c, w) && w' == w.(source := w'.source, truth := w'.truth)
    requires forall k :: Moved(c, k) ==>
        RowOf(w'.source, k) == RowOf(w.source, k) && TruthOf(w'.truth, k) == TruthOf(w.truth, k)
    ensures CopiesSound(c, w')
  {
    hide NewestVisible, Moved;
  }

  // ---- writes once the table names the new group ----------------------------------

  /** A copy stays harmless through a write if and only if the write is not a newest version that
      the copy would undo. */
  lemma HarmlessIff(s: Shard, truth: map<Bytes, (nat, Cell)>, x: Command, now: int, y: Command)
    requires Keyed(x) && y.Set? && Harmless(RowOf(s, y.key), TruthOf(truth, y.key), y)
    ensures var after := Apply(s, x, now).0;
            var added := Added(RowOf(s, x.key), RowOf(after, x.key));
            Harmless(RowOf(after, y.key), TruthOf(Acknowledged(truth, s, after, x.key), y.key), y) <==>
            !(added.Some? && (x.key in truth ==> added.value.0 >= truth[x.key].0)
              && Undoes(y, x.key, added.value.0, added.value.1))
  {
    hide ApplyRow, Added, Apply, Acknowledged;
    var after := Apply(s, x, now).0;
    if y.key != x.key {
      ElsewhereSame(s, x, now, y.key);
      OthersAcknowledged(truth, s, after, x.key, y.key);
    } else {
      var t, cell := AcknowledgedIs(truth, s, x, now);
    }
  }

  lemma WriteTargetKeeps(c: Config, w: World, x: Command, now: int)
    requires MoveInv(c, w) && Enabled(c, w, WriteTarget(x, now)) && Safe(c, w, WriteTarget(x, now))
    ensures MoveInv(c, Next(c, w, WriteTarget(x, now)))
  {
    hide SafeWrite, Shows, OnlyCopies, Across, IsCopy, Harmless, Acknowledged, Apply, NewestVisible, InRange;
    var w' := Next(c, w, WriteTarget(x, now));
    ServingWrite(c, w, x, now, w.target, true);
    forall y | y in w'.copies ensures HarmlessCopy(c, w', y) {
      CopyStaysHarmless(c, w, x, now, y);
    }
    if w.note {
      forall k | Moved(c, k) ensures SourceHarmless(w', k) {
        if NewestVisible(RowOf(w.source, k)).Some? {
          CopyStaysHarmless(c, w, x, now, CopyOf(k, RowOf(w.source, k)));
        }
      }
    }
  }

  lemma CopyStaysHarmless(c: Config, w: World, x: Command, now: int, y: Command)
    requires Keyed(x) && (Moved(c, x.key) ==> SafeWrite(w, w.target, x, now, true))
    requires HarmlessCopy(c, w, y) && OnItsWay(w, y)
    ensures var after := Apply(w.target, x, now).0;
            Harmless(RowOf(after, y.key), TruthOf(Acknowledged(w.truth, w.target, after, x.key), y.key), y)
  {
    hide Harmless, Acknowledged, Apply, NewestVisible, InRange, Added, Unburies, OnItsWay;
    HarmlessIff(w.target, w.truth, x, now, y);
  }

  // ---- copying --------------------------------------------------------------------

  lemma CopyLands(row: Row, last: nat, x: Command)
    requires x.Set? && x.timestamp.Some? && x.timestamp.value >= 0
    ensures var after := ApplyRow(row, last, x, 0).row;
            after.versions == row.versions || after.versions == row.versions[x.timestamp.value as nat := Value(x.value)]
  {
  }

  /** Before the table moves: what lands is what the old group's row reads as. */
  lemma LandBefore(source: Row, target: Row, last: nat, x: Command)
    requires OnlyCopies(source, target) && x.Set? && x.timestamp.Some? && x.timestamp.value >= 0
    requires NewestVisible(source) == Some((x.value, x.timestamp.value as nat))
    ensures OnlyCopies(source, ApplyRow(target, last, x, 0).row)
    ensures Across(source, target) ==> Across(source, ApplyRow(target, last, x, 0).row)
  {
    hide ApplyRow, NewestVisible;
    CopyLands(target, last, x);
  }

  /** After it: what lands is there already, or is older than what is shown. */
  lemma LandAfter(row: Row, truth: Option<(nat, Cell)>, last: nat, x: Command)
    requires Shows(row, truth) && Harmless(row, truth, x)
    ensures Shows(ApplyRow(row, last, x, 0).row, truth)
    ensures forall u :: u in row.versions ==> u in ApplyRow(row, last, x, 0).row.versions
  {
    hide ApplyRow, NewestVisible;
    CopyLands(row, last, x);
    var after := ApplyRow(row, last, x, 0).row;
    VisibleNewest(row, truth.value.0);
    VisibleNewest(after, truth.value.0);
  }

  lemma LandCopyKeeps(c: Config, w: World, x: Command)
    requires MoveInv(c, w) && Enabled(c, w, LandCopy(x))
    ensures MoveInv(c, Next(c, w, LandCopy(x)))
  {
    hide Shows, Moved, OnlyCopies, Across, IsCopy, Harmless, ApplyRow, Apply, NewestVisible;
    var w' := Next(c, w, LandCopy(x));
    AppliedRow(w.target, x, 0);
    forall k | k != x.key ensures RowOf(w'.target, k) == RowOf(w.target, k) {
      ElsewhereSame(w.target, x, 0, k);
    }
    if NamesSource(c, w) {
      IsCopyParts(c, w.source, x);
      LandBefore(RowOf(w.source, x.key), RowOf(w.target, x.key), w.target.last, x);
    } else {
      LandAfter(RowOf(w.target, x.key), TruthOf(w.truth, x.key), w.target.last, x);
      forall y | y in w'.copies ensures HarmlessCopy(c, w', y) {
        StaysHarmless(RowOf(w.target, y.key), RowOf(w'.target, y.key), TruthOf(w.truth, y.key), y);
      }
      if w.note {
        forall k | Moved(c, k) ensures SourceHarmless(w', k) {
          if NewestVisible(RowOf(w.source, k)).Some? {
            StaysHarmless(RowOf(w.target, k), RowOf(w'.target, k), TruthOf(w.truth, k), CopyOf(k, RowOf(w.source, k)));
          }
        }
      }
    }
  }

  lemma StaysHarmless(row: Row, after: Row, truth: Option<(nat, Cell)>, x: Command)
    requires Harmless(row, truth, x) && forall u :: u in row.versions ==> u in after.versions
    ensures Harmless(after, truth, x)
  {
  }

  lemma IsCopyParts(c: Config, source: Shard, x: Command)
    requires IsCopy(c, source, x)
    ensures x.Set? && Moved(c, x.key) && x.timestamp.Some? && x.timestamp.value >= 0
    ensures NewestVisible(RowOf(source, x.key)) == Some((x.value, x.timestamp.value as nat))
  {
  }

  lemma SendCopyKeeps(c: Config, w: World, key: Bytes)
    requires MoveInv(c, w) && Enabled(c, w, SendCopy(key))
    ensures MoveInv(c, Next(c, w, SendCopy(key)))
  {
    hide Shows, OnlyCopies, Across, NewestVisible, InRange, Harmless;
    var x := CopyOf(key, RowOf(w.source, key));
    var v := NewestVisible(RowOf(w.source, key)).value;
    assert v == (v.0, v.1);
    assert IsCopy(c, w.source, x);
    var w' := Next(c, w, SendCopy(key));
    if NamesTarget(c, w) {
      assert SourceHarmless(w, key);
      forall y | y in w'.copies ensures HarmlessCopy(c, w', y) {
        assert y in w.copies ==> HarmlessCopy(c, w, y);
      }
    }
  }

  lemma KnowCopiedKeeps(c: Config, w: World, key: Bytes)
    requires MoveInv(c, w) && Enabled(c, w, KnowCopied(key))
    ensures MoveInv(c, Next(c, w, KnowCopied(key)))
  {
    hide Shows, OnlyCopies, IsCopy, Harmless, InRange;
    VisibleIsThere(RowOf(w.target, key));
    hide NewestVisible;
    assert Across(RowOf(w.source, key), RowOf(w.target, key));
  }

  lemma VisibleIsThere(row: Row)
    ensures NewestVisible(row).Some? ==> NewestVisible(row).value.1 in row.versions
  {
  }

  // ---- the table ------------------------------------------------------------------

  /** The rows the new group has are then the rows to serve. */
  lemma SwitchShows(source: Row, target: Row, truth: Option<(nat, Cell)>)
    requires Shows(source, truth) && OnlyCopies(source, target) && Across(source, target)
    ensures Shows(target, truth)
    ensures NewestVisible(source).Some? ==>
              truth == Some((NewestVisible(source).value.1, Value(NewestVisible(source).value.0)))
              && truth.value.0 in target.versions
  {
    if NewestVisible(source).Some? {
      var t := NewestVisible(source).value.1;
      assert t in AtMost(target.versions, MAX_TS);
      NewestOne(AtMost(target.versions, MAX_TS), t);
    } else {
      assert target.versions == map[];
      assert AtMost(target.versions, MAX_TS) == map[];
    }
  }

  /** What the table makes of a proposal: one that can serve always lands, once; what it answers
      when it has landed depends on the addresses it has by then. */
  lemma ProposalEffect(c: Config, w: World, a: R.Addresses)
    requires ConfigSound(c) && c.id in w.table.shards && (NamesSource(c, w) || NamesTarget(c, w))
    ensures var (t, code) := R.Apply(w.table, Proposal(c, a));
            && c.id in t.shards
            && (NamesSource(c, w) ==> (code == R.OK <==> R.CanServe(c.target, a)))
            && (NamesSource(c, w) && code == R.OK ==> t.shards[c.id].nodes == c.target)
            && (NamesTarget(c, w) ==>
                  (code == R.OK <==> R.CanServe(c.target, a) && w.table.shards[c.id].addresses == a))
            && (code != R.OK || NamesTarget(c, w) ==> t == w.table)
  {
  }

  lemma LandProposalKeeps(c: Config, w: World, a: R.Addresses)
    requires MoveInv(c, w) && a in w.proposals
    ensures MoveInv(c, Next(c, w, LandProposal(a)))
  {
    hide Shows, OnlyCopies, Across, IsCopy, Harmless, InRange, NoLocks, NewestVisible;
    ProposalEffect(c, w, a);
    var w' := Next(c, w, LandProposal(a));
    hide R.Apply, R.CanServe;
    if w'.table != w.table {
      forall k | Moved(c, k)
        ensures Shows(RowOf(w.target, k), TruthOf(w.truth, k)) && SourceHarmless(w', k)
      {
        RowSwitches(c, w, k);
      }
      forall x | x in w.copies ensures HarmlessCopy(c, w', x) {
        IsCopyParts(c, w.source, x);
        RowSwitches(c, w, x.key);
        CopyAsSource(RowOf(w.source, x.key), RowOf(w.target, x.key), TruthOf(w.truth, x.key), x);
      }
    }
  }

  lemma RowSwitches(c: Config, w: World, k: Bytes)
    requires Moved(c, k) && Shows(RowOf(w.source, k), TruthOf(w.truth, k))
    requires OnlyCopies(RowOf(w.source, k), RowOf(w.target, k)) && Across(RowOf(w.source, k), RowOf(w.target, k))
    ensures Shows(RowOf(w.target, k), TruthOf(w.truth, k)) && SourceHarmless(w, k)
  {
    hide Shows, OnlyCopies, Across, NewestVisible;
    SwitchShows(RowOf(w.source, k), RowOf(w.target, k), TruthOf(w.truth, k));
  }

  lemma CopyAsSource(source: Row, target: Row, truth: Option<(nat, Cell)>, x: Command)
    requires x.Set? && x.timestamp.Some? && x.timestamp.value >= 0
    requires NewestVisible(source) == Some((x.value, x.timestamp.value as nat))
    requires Harmless(target, truth, CopyOf(x.key, source))
    ensures Harmless(target, truth, x)
  {
    hide NewestVisible;
  }

  lemma ProposeKeeps(c: Config, w: World, a: R.Addresses)
    requires MoveInv(c, w) && AllCopied(c, w)
    ensures MoveInv(c, Next(c, w, Propose(a)))
  {
    hide Shows, OnlyCopies, IsCopy, Harmless, InRange, NewestVisible, NoLocks, R.CanServe;
    var w' := Next(c, w, Propose(a));
    if NamesSource(c, w) {
      forall k | Moved(c, k) ensures Across(RowOf(w'.source, k), RowOf(w'.target, k)) {
      }
    } else {
      assert forall k :: Moved(c, k) && w'.note ==> SourceHarmless(w, k) ==> SourceHarmless(w', k);
      assert forall x :: x in w'.copies ==> HarmlessCopy(c, w, x) ==> HarmlessCopy(c, w', x);
    }
  }

  lemma QuietKeeps(c: Config, w: World, s: Step)
    requires MoveInv(c, w) && Enabled(c, w, s)
    requires s.Begin? || s.CannotBegin? || s.WriteNote? || s.HearLanded? || s.CommitMove? || s.Crash? || s.TableMoves?
    ensures MoveInv(c, Next(c, w, s))
  {
    hide Shows, OnlyCopies, Across, IsCopy, Harmless, Moved, NoLocks, NewestVisible, R.CanServe;
  }

  /** Giving the shard back keeps the invariant if and only if no proposal that was sent can land. */
  lemma HearRefusedIff(c: Config, w: World, a: R.Addresses)
    requires MoveInv(c, w) && Enabled(c, w, HearRefused(a))
    ensures MoveInv(c, Next(c, w, HearRefused(a))) <==> Hopeless(c, w)
  {
    hide Shows, Across, IsCopy, Harmless, InRange, NoLocks, R.Apply, R.CanServe, OnlyCopies;
    var w' := Next(c, w, HearRefused(a));
    if Hopeless(c, w) {
      NoCopies(c, w');
    }
  }

  lemma NextKeeps(c: Config, w: World, s: Step)
    requires MoveInv(c, w) && Enabled(c, w, s) && Safe(c, w, s)
    ensures MoveInv(c, Next(c, w, s))
  {
    hide MoveInv, Next;
    match s
    case WriteSource(x, now) => WriteSourceKeeps(c, w, x, now);
    case WriteTarget(x, now) => WriteTargetKeeps(c, w, x, now);
    case SendCopy(key) => SendCopyKeeps(c, w, key);
    case LandCopy(x) => LandCopyKeeps(c, w, x);
    case KnowCopied(key) => KnowCopiedKeeps(c, w, key);
    case Propose(a) => ProposeKeeps(c, w, a);
    case LandProposal(a) => LandProposalKeeps(c, w, a);
    case HearRefused(a) => HearRefusedIff(c, w, a);
    case _ => QuietKeeps(c, w, s);
  }

  lemma {:induction false} RunKeeps(c: Config, worlds: seq<World>, steps: seq<Step>, i: nat)
    requires Run(c, worlds, steps) && i < |worlds|
    ensures MoveInv(c, worlds[i])
  {
    hide MoveInv, Next, Enabled, Safe, Initial;
    if i == 0 {
      InitialInv(c, worlds[0]);
    } else {
      RunKeeps(c, worlds, steps, i - 1);
      NextKeeps(c, worlds[i - 1], steps[i - 1]);
    }
  }

  /** At every point of every run: the group the table names shows the newest acknowledged version
      of every key of the range, at its own timestamp; and not both groups admit new rows. */
  lemma NoRowLost(c: Config, worlds: seq<World>, steps: seq<Step>, i: nat, key: Bytes)
    requires Run(c, worlds, steps) && i < |worlds| && Moved(c, key)
    ensures NewestVisible(RowOf(Serving(c, worlds[i]), key)) == VisibleOf(TruthOf(worlds[i].truth, key))
    ensures OneAdmits(c, worlds[i])
    ensures worlds[i].sourceOpen || NamesTarget(c, worlds[i])
  {
    hide Next, Enabled, NewestVisible, Moved;
    RunKeeps(c, worlds, steps, i);
    assert Shows(RowOf(Serving(c, worlds[i]), key), TruthOf(worlds[i].truth, key));
  }
}
