/** The side that makes a move, as it runs: each call is a sequence of the steps of `ShardMove`. */
module RecoveryRunner {
  import opened Common
  import opened ByteOrder
  import opened Rows
  import RowLaws
  import opened Shards
  import Paths
  import R = Routing
  import opened ShardMove
  import opened ShardMoveProof

  /** One step of a move. */
  ghost predicate Steps(c: Config, w: World, w': World) {
    exists step :: StepsBy(c, w, step, w')
  }

  ghost predicate StepsBy(c: Config, w: World, step: Step, w': World) {
    Enabled(c, w, step) && w' == Next(c, w, step)
  }

  ghost function Of(c: Config): (World, World) -> bool { (w, w') => Steps(c, w, w') }

  ghost predicate Reaches(c: Config, w: World, w': World) { Paths.Reaches(Of(c), w, w') }

  lemma ReachesSelf(c: Config, w: World)
    ensures Reaches(c, w, w)
  {
    Paths.ReachesSelf(Of(c), w);
  }

  lemma ReachesNext(c: Config, w: World, w': World, step: Step)
    requires Reaches(c, w, w') && Enabled(c, w', step)
    ensures Reaches(c, w, Next(c, w', step))
  {
    hide Next, Enabled;
    assert StepsBy(c, w', step, Next(c, w', step));
    Paths.ReachesThen(Of(c), w, w', Next(c, w', step));
  }

  lemma ReachesOn(c: Config, w: World, w1: World, w2: World)
    requires Reaches(c, w, w1) && Reaches(c, w1, w2)
    ensures Reaches(c, w, w2)
  {
    Paths.ReachesOn(Of(c), w, w1, w2);
  }

  /** What happens to one attempt to tell the table. */
  datatype Attempt =
    | NothingRead                  // the table could not be read, so nothing was asked
    | NoAnswer(landed: bool)       // it was asked, and may have taken it
    | Heard                        // it answered

  datatype Outcome = Accepted | Rejected | Unreachable

  /** What happens to a row on its way to the new group. */
  datatype Delivery = Lost | Unanswered | Answered

  /** Every key of the range that has a row is one of `keys`. */
  ghost predicate Names(c: Config, keys: seq<Bytes>, s: Shard) {
    forall k :: Moved(c, k) && NewestVisible(RowOf(s, k)).Some? ==> k in keys
  }

  /** The row is committed in the new group by whoever committed it in the old. */
  predicate SameRecord(source: Row, target: Row)
    requires NewestVisible(source).Some?
  {
    var ts := NewestVisible(source).value.1;
    Newest(source.writes) == Some(ts) ==> ts in target.writes && target.writes[ts] == source.writes[ts]
  }

  /** A copy that was answered with success is there, at the version it was sent at. */
  lemma CopyArrived(c: Config, w: World, key: Bytes)
    requires MoveInv(c, w) && NamesSource(c, w) && Moved(c, key) && NewestVisible(RowOf(w.source, key)).Some?
    requires var x := CopyOf(key, RowOf(w.source, key)); Apply(w.target, x, 0).1 == SUCCESS
    ensures var x := CopyOf(key, RowOf(w.source, key));
            && NewestVisible(RowOf(Apply(w.target, x, 0).0, key)) == NewestVisible(RowOf(w.source, key))
            && SameRecord(RowOf(w.source, key), RowOf(Apply(w.target, x, 0).0, key))
  {
    var source, target := RowOf(w.source, key), RowOf(w.target, key);
    var v := NewestVisible(source).value;
    var x := CopyOf(key, source);
    assert OnlyCopies(source, target);
    var after := RowOf(Apply(w.target, x, 0).0, key);
    assert after.versions == target.versions[v.1 := Value(v.0)] && ValidTs(v.1);
    assert v.1 in AtMost(after.versions, MAX_TS);
    NewestOne(AtMost(after.versions, MAX_TS), v.1);
  }

  /** The new group takes the row: any record that goes with it is at a timestamp there can be. */
  predicate CanTake(row: Row)
    requires NewestVisible(row).Some?
  {
    var ts := NewestVisible(row).value.1;
    Newest(row.writes) == Some(ts) ==> ValidTs(row.writes[ts])
  }

  lemma TakenIff(target: Shard, key: Bytes, row: Row)
    requires ValidKey(key) && NewestVisible(row).Some?
    ensures Apply(target, CopyOf(key, row), 0).1 == SUCCESS <==> CanTake(row)
    ensures forall k :: k != key ==> RowOf(Apply(target, CopyOf(key, row), 0).0, k) == RowOf(target, k)
  {
    var v := NewestVisible(row).value;
    RowLaws.VisibleIff(row, MAX_TS, v.0, v.1);
    RowLaws.SetIff(RowOf(target, key), target.last, CopyOf(key, row), 0);
  }

  /** The two rows read as the same version. */
  predicate SameVersion(source: Row, target: Row)
    requires NewestVisible(source).Some?
  {
    NewestVisible(target).Some? && NewestVisible(target).value.1 == NewestVisible(source).value.1
  }

  /** There is no row to copy, or it is across already, or it is taken and heard to be. */
  predicate GetsAcross(source: Shard, target: Shard, key: Bytes, fate: Bytes -> Delivery) {
    var row := RowOf(source, key);
    NewestVisible(row).Some? ==> SameVersion(row, RowOf(target, key)) || (fate(key).Answered? && CanTake(row))
  }

  ghost predicate AllGetAcross(source: Shard, target: Shard, keys: seq<Bytes>, fate: Bytes -> Delivery) {
    forall k :: k in keys ==> GetsAcross(source, target, k, fate)
  }

  /** The keys gone through are across, and the rows of all others are what they were. */
  ghost predicate AcrossSoFar(source: Shard, target0: Shard, target: Shard, done: seq<Bytes>, fate: Bytes -> Delivery) {
    && AllGetAcross(source, target0, done, fate)
    && (forall k :: k in done && NewestVisible(RowOf(source, k)).Some? ==>
          SameVersion(RowOf(source, k), RowOf(target, k)))
    && forall k :: k !in done ==> RowOf(target, k) == RowOf(target0, k)
  }

  lemma AcrossMore(source: Shard, target0: Shard, target: Shard, done: seq<Bytes>, fate: Bytes -> Delivery, key: Bytes,
                   target': Shard)
    requires AcrossSoFar(source, target0, target, done, fate)
    requires forall k :: k != key ==> RowOf(target', k) == RowOf(target, k)
    requires NewestVisible(RowOf(source, key)).Some? ==>
               && SameVersion(RowOf(source, key), RowOf(target', key))
               && (target' == target || (fate(key).Answered? && CanTake(RowOf(source, key))))
    requires NewestVisible(RowOf(source, key)).None? ==> target' == target
    ensures AcrossSoFar(source, target0, target', done + [key], fate)
  {
    hide NewestVisible, CanTake;
  }

  /** A row that had to be sent, and was not heard to be taken. */
  lemma NotAcross(source: Shard, target0: Shard, target: Shard, done: seq<Bytes>, fate: Bytes -> Delivery, key: Bytes)
    requires AcrossSoFar(source, target0, target, done, fate) && NewestVisible(RowOf(source, key)).Some?
    requires !SameVersion(RowOf(source, key), RowOf(target, key))
    requires !(fate(key).Answered? && CanTake(RowOf(source, key)))
    ensures !GetsAcross(source, target0, key, fate)
  {
    hide NewestVisible, CanTake;
  }

  /** One of the attempts reaches the table. */
  predicate LandsIn(attempts: seq<Attempt>) { NoAnswer(true) in attempts || Heard in attempts }

  // ---- how a call can leave the move ----------------------------------------------

  /** The table names the new group, the old one is closed and nothing is left to resume. */
  predicate Finished(c: Config, w: World) {
    NamesTarget(c, w) && !w.sourceOpen && !w.note && w.phase == Idle
  }

  /** Written down and frozen, for the next call to pick up. */
  predicate Waiting(w: World) { w.note && w.frozen && w.sourceOpen && w.phase.Copying? }

  /** The old group takes rows again, and there is no move to find. */
  predicate GivenBack(w: World) {
    w.sourceOpen && !w.frozen && !w.note && w.phase == Idle && w.target == EMPTY_SHARD && w.copies == {}
  }

  /** A call ends the move, leaves it to be picked up, or gives the shard back; and giving it back is
      right exactly when no proposal that was sent can land. */
  ghost predicate Ends(c: Config, w: World, done: bool) {
    if done then Finished(c, w) && MoveInv(c, w)
    else (Waiting(w) && MoveInv(c, w)) || (GivenBack(w) && (MoveInv(c, w) <==> Hopeless(c, w)))
  }

  /** And which of these it is: done, when every row gets across, the table answers and the nodes can
      serve; given back, when they cannot; and waiting, when a row or the answer is missing. */
  ghost predicate EndsBy(c: Config, w: World, done: bool, across: bool, addresses: R.Addresses,
                         attempts: seq<Attempt>) {
    && (done <==> across && Heard in attempts && R.CanServe(c.target, addresses))
    && (GivenBack(w) <==> across && Heard in attempts && !R.CanServe(c.target, addresses))
    && (Waiting(w) <==> !across || Heard !in attempts)
  }

  class RecoveryRunner {
    const c: Config
    var world: World

    constructor (c: Config, world: World)
      ensures this.c == c && this.world == world
    {
      this.c := c;
      this.world := world;
    }

    /** One row, proposed to the new group as the version it is. */
    method MoveRow(key: Bytes, delivery: Delivery) returns (ok: bool)
      requires MoveInv(c, world) && NamesSource(c, world) && world.phase.Copying?
      requires Moved(c, key) && NewestVisible(RowOf(world.source, key)).Some?
      modifies this`world
      ensures Reaches(c, old(world), world) && MoveInv(c, world)
      ensures world == old(world).(target := world.target, copies := world.copies)
      ensures ok <==> delivery.Answered? && CanTake(RowOf(world.source, key))
      ensures ok ==> NewestVisible(RowOf(world.target, key)) == NewestVisible(RowOf(world.source, key))
                     && SameRecord(RowOf(world.source, key), RowOf(world.target, key))
      ensures forall k :: k != key ==> RowOf(world.target, k) == RowOf(old(world).target, k)
    {
      MovedValid(c, key);
      hide Reaches, MoveInv, Next, Enabled, Moved, Apply, NewestVisible, CanTake, SameRecord;
      ReachesSelf(c, world);
      ghost var w0 := world;
      var x := CopyOf(key, RowOf(world.source, key));
      SendStep(c, w0, key);
      ReachesNext(c, w0, w0, SendCopy(key));
      SendCopyKeeps(c, w0, key);
      world := world.(copies := world.copies + {x});
      if delivery.Lost? {
        return false;
      }
      ghost var w1 := world;
      LandStep(c, w1, x);
      ReachesNext(c, w0, w1, LandCopy(x));
      LandCopyKeeps(c, w1, x);
      TakenIff(world.target, key, RowOf(world.source, key));
      var (target, code) := Apply(world.target, x, 0);
      if code == SUCCESS { CopyArrived(c, w1, key); }
      world := world.(target := target);
      ok := code == SUCCESS && delivery.Answered?;
    }

    /** Copies the rows the new group does not have yet, and stops at the first that is not
        answered with success. */
    method CopyRows(keys: seq<Bytes>, fate: Bytes -> Delivery) returns (ok: bool)
      requires MoveInv(c, world) && NamesSource(c, world) && world.phase.Copying?
      requires forall k :: k in keys ==> Moved(c, k)
      modifies this`world
      ensures Reaches(c, old(world), world) && MoveInv(c, world) && NamesSource(c, world) && world.phase.Copying?
      ensures world.source == old(world).source && world.note
      ensures ok && Names(c, keys, world.source) ==> AllCopied(c, world)
      ensures ok <==> AllGetAcross(old(world).source, old(world).target, keys, fate)
    {
      hide Reaches, MoveInv, Next, Enabled, Moved, Apply, NewestVisible, CanTake, AcrossSoFar, GetsAcross;
      ReachesSelf(c, world);
      NoneAcross(world.source, world.target, fate);
      assert keys[..0] == [];
      var i := 0;
      while i < |keys|
        invariant 0 <= i <= |keys|
        invariant Reaches(c, old(world), world) && MoveInv(c, world) && NamesSource(c, world) && world.phase.Copying?
        invariant world.source == old(world).source
        invariant forall j :: 0 <= j < i && NewestVisible(RowOf(world.source, keys[j])).Some? ==>
            keys[j] in world.phase.copied
        invariant AcrossSoFar(world.source, old(world).target, world.target, keys[..i], fate)
      {
        var key := keys[i];
        var row := RowOf(world.source, key);
        ghost var target := world.target;
        assert keys[..i + 1] == keys[..i] + [key];
        i := i + 1;
        if NewestVisible(row).None? {
          AcrossMore(world.source, old(world).target, target, keys[..i - 1], fate, key, target);
          continue;
        }
        var there := NewestVisible(RowOf(world.target, key));
        if there.None? || there.value.1 != NewestVisible(row).value.1 {
          ghost var w0 := world;
          var moved := MoveRow(key, fate(key));
          ReachesOn(c, old(world), w0, world);
          if !moved {
            NotAcross(world.source, old(world).target, target, keys[..i - 1], fate, key);
            NoteHeld(c, world);
            return false;
          }
        }
        AcrossMore(world.source, old(world).target, target, keys[..i - 1], fate, key, world.target);
        ghost var w2 := world;
        KnowStep(c, w2, key);
        ReachesNext(c, old(world), w2, KnowCopied(key));
        KnowCopiedKeeps(c, w2, key);
        world := world.(phase := Copying(world.phase.copied + {key}));
      }
      NoteHeld(c, world);
      ok := true;
      assert keys[..i] == keys;
      EachAcross(world.source, old(world).target, world.target, keys, fate);
      KnownAll(c, keys, world);
    }

    /** Tells the table, until it has answered or the attempts are used up. */
    method ProposeMove(addresses: R.Addresses, attempts: seq<Attempt>) returns (outcome: Outcome)
      requires MoveInv(c, world) && AllCopied(c, world)
      modifies this`world
      ensures Reaches(c, old(world), world) && MoveInv(c, world)
      ensures world == old(world).(table := world.table, proposals := world.proposals)
      ensures world.proposals <= old(world).proposals + {addresses}
      ensures outcome == Accepted ==> NamesTarget(c, world)
      ensures outcome == Rejected ==>
                addresses in world.proposals && R.Apply(world.table, Proposal(c, addresses)).1 != R.OK
      ensures outcome == Unreachable <==> Heard !in attempts
      ensures Heard in attempts ==>
                (outcome == Accepted <==>
                 R.CanServe(c.target, addresses) && (old(NamesTarget(c, world)) ==> NamedAt(c, old(world), addresses)))
      ensures NamesTarget(c, world) <==>
              old(NamesTarget(c, world)) || (R.CanServe(c.target, addresses) && LandsIn(attempts))
    {
      hide Reaches, MoveInv, Next, Enabled, NewestVisible, Moved, R.ApplyMove, R.Apply, R.CanServe, NamesTarget,
           NamedAt, AllCopied, Told, LandsIn;
      ReachesSelf(c, world);
      assert attempts[..0] == [];
      ToldNone(c, world, addresses);
      var i := 0;
      while i < |attempts|
        invariant 0 <= i <= |attempts|
        invariant Reaches(c, old(world), world) && MoveInv(c, world) && AllCopied(c, world)
        invariant world == old(world).(table := world.table, proposals := world.proposals)
        invariant world.proposals <= old(world).proposals + {addresses}
        invariant Heard !in attempts[..i] && Told(c, old(world), world, addresses, attempts[..i])
      {
        var attempt := attempts[i];
        assert attempts[..i + 1] == attempts[..i] + [attempt];
        i := i + 1;
        if attempt.NothingRead? {
          ToldMore(c, old(world), world, addresses, attempts[..i - 1], attempt, world);
          continue;
        }
        ghost var w0 := world;
        CopiedStays(c, w0, addresses);
        ProposeStep(c, w0, addresses);
        ReachesNext(c, old(world), w0, Propose(addresses));
        ProposeKeeps(c, w0, addresses);
        world := world.(proposals := world.proposals + {addresses});
        if attempt == NoAnswer(false) {
          ToldMore(c, old(world), w0, addresses, attempts[..i - 1], attempt, world);
          continue;
        }
        ghost var w1 := world;
        LandProposalStep(c, w1, addresses);
        ReachesNext(c, old(world), w1, LandProposal(addresses));
        LandProposalKeeps(c, w1, addresses);
        ProposalHeard(c, w1, addresses);
        var (table, code) := R.ApplyMove(world.table, c.id, c.source, c.target, addresses);
        world := world.(table := table);
        CopiedTable(c, w1, table);
        ToldLanded(c, old(world), w0, addresses, attempts[..i - 1], attempt, world);
        if attempt.Heard? {
          HeardLast(attempts, i);
          ToldAll(c, old(world), world, addresses, attempts[..i]);
          return if code == R.OK then Accepted else Rejected;
        }
      }
      assert attempts[..i] == attempts;
      ToldAll(c, old(world), world, addresses, attempts);
      outcome := Unreachable;
    }

    /** The table names the new group: the note goes, and the old group with it. */
    method CommitMove()
      requires MoveInv(c, world) && NamesTarget(c, world) && world.phase.Copying?
      modifies this`world
      ensures Reaches(c, old(world), world) && MoveInv(c, world)
      ensures world == old(world).(phase := Idle, note := false, sourceOpen := false)
    {
      hide Reaches, MoveInv, Next, Enabled;
      ReachesSelf(c, world);
      ghost var w0 := world;
      LandedStep(c, w0);
      ReachesNext(c, w0, w0, HearLanded);
      QuietKeeps(c, w0, HearLanded);
      world := world.(phase := Landed);
      ghost var w1 := world;
      CommitStep(c, w1);
      ReachesNext(c, w0, w1, Step.CommitMove);
      QuietKeeps(c, w1, Step.CommitMove);
      world := world.(phase := Idle, note := false, sourceOpen := false);
    }

    /** The table refused: the shard goes back to taking rows and the new group is put aside. */
    method AbortMove(ghost addresses: R.Addresses)
      requires MoveInv(c, world) && world.phase.Copying? && addresses in world.proposals
      requires R.Apply(world.table, Proposal(c, addresses)).1 != R.OK
      modifies this`world
      ensures Reaches(c, old(world), world) && GivenBack(world)
      ensures MoveInv(c, world) <==> Hopeless(c, world)
      ensures world.source == old(world).source && world.table == old(world).table
      ensures world.proposals == old(world).proposals
    {
      hide Reaches, MoveInv, Next, Enabled, R.Apply;
      ReachesSelf(c, world);
      ghost var w0 := world;
      NoteHeld(c, w0);
      RefusedStep(c, w0, addresses);
      ReachesNext(c, w0, w0, HearRefused(addresses));
      HearRefusedIff(c, w0, addresses);
      world := world.(phase := Idle, note := false, frozen := false, target := EMPTY_SHARD, copies := {});
    }

    /** The whole of a move from its note on: how it ends is decided by what is heard. */
    method FinishMove(keys: seq<Bytes>, fate: Bytes -> Delivery, addresses: R.Addresses, attempts: seq<Attempt>)
        returns (done: bool)
      requires MoveInv(c, world) && NamesSource(c, world) && world.phase.Copying?
      requires (forall k :: k in keys ==> Moved(c, k)) && Names(c, keys, world.source)
      modifies this`world
      ensures Reaches(c, old(world), world) && Ends(c, world, done)
      ensures EndsBy(c, world, done, AllGetAcross(old(world).source, old(world).target, keys, fate), addresses,
                     attempts)
    {
      hide Reaches, MoveInv, Next, Enabled, NewestVisible, Moved, R.Apply, Names, AllCopied, AllGetAcross, R.CanServe;
      Exclusive(c, world);
      var ok := CopyRows(keys, fate);
      if !ok {
        NoteHeld(c, world);
        return false;
      }
      ghost var w0 := world;
      var outcome := ProposeMove(addresses, attempts);
      ReachesOn(c, old(world), w0, world);
      ghost var w1 := world;
      match outcome {
        case Accepted =>
          CommitMove();
          done := true;
        case Rejected =>
          AbortMove(addresses);
          done := false;
        case Unreachable =>
          ReachesSelf(c, world);
          NoteHeld(c, world);
          done := false;
      }
      ReachesOn(c, old(world), w1, world);
    }

    /** A side that came back with a note asks the table how far the move got; a table that names
        neither group is left alone. */
    method ResumeMigration(keys: seq<Bytes>, fate: Bytes -> Delivery, addresses: R.Addresses, attempts: seq<Attempt>)
        returns (done: bool)
      requires world.phase.Copying? && (NamesSource(c, world) || NamesTarget(c, world) ==> MoveInv(c, world))
      requires (forall k :: k in keys ==> Moved(c, k)) && Names(c, keys, world.source)
      modifies this`world
      ensures Reaches(c, old(world), world)
      ensures old(NamesTarget(c, world)) ==> done
      ensures old(NamesSource(c, world) || NamesTarget(c, world)) ==> Ends(c, world, done)
      ensures old(NamesSource(c, world)) && !old(NamesTarget(c, world)) ==>
                EndsBy(c, world, done, AllGetAcross(old(world).source, old(world).target, keys, fate), addresses,
                       attempts)
      ensures !old(NamesSource(c, world) || NamesTarget(c, world)) ==> !done && world == old(world)
    {
      hide Reaches, MoveInv, Names, Moved, AllGetAcross, EndsBy;
      if NamesTarget(c, world) {
        CommitMove();
        done := true;
      } else if NamesSource(c, world) {
        done := FinishMove(keys, fate, addresses, attempts);
      } else {
        ReachesSelf(c, world);
        done := false;
      }
    }

    /** Freeze, look for locks, write the move down, and make it; a lock anywhere in the range
        gives the shard back at once. */
    method MoveShard(keys: seq<Bytes>, locked: seq<Bytes>, fate: Bytes -> Delivery, addresses: R.Addresses,
                     attempts: seq<Attempt>)
        returns (done: bool)
      requires MoveInv(c, world) && world.phase == Idle && !world.note && world.sourceOpen && NamesSource(c, world)
      requires (forall k :: k in keys ==> Moved(c, k)) && Names(c, keys, world.source)
      requires forall k :: k in locked <==> Moved(c, k) && RowOf(world.source, k).locks != map[]
      modifies this`world
      ensures Reaches(c, old(world), world) && Ends(c, world, done)
      ensures locked != [] ==> !done && GivenBack(world) && MoveInv(c, world) && world.source == old(world).source
      ensures locked == [] ==>
                EndsBy(c, world, done, AllGetAcross(old(world).source, old(world).target, keys, fate), addresses,
                       attempts)
    {
      hide Reaches, MoveInv, Next, Enabled, NewestVisible, Moved, Names, AllGetAcross, EndsBy;
      ReachesSelf(c, world);
      ghost var w0 := world;
      BeginStep(c, w0);
      ReachesNext(c, w0, w0, Begin);
      QuietKeeps(c, w0, Begin);
      world := world.(frozen := true, phase := Frozen);
      ghost var w1 := world;
      if locked != [] {
        CannotStep(c, w1);
        ReachesNext(c, w0, w1, CannotBegin);
        QuietKeeps(c, w1, CannotBegin);
        world := world.(frozen := false, phase := Idle);
        NothingCopied(c, world);
        IdleIsHopeless(c, world);
        return false;
      }
      assert NoLocks(c, w1.source);
      NoteStep(c, w1);
      ReachesNext(c, w0, w1, WriteNote);
      QuietKeeps(c, w1, WriteNote);
      world := world.(note := true, phase := Copying({}));
      ghost var w2 := world;
      done := FinishMove(keys, fate, addresses, attempts);
      ReachesOn(c, w0, w2, world);
    }
  }

  lemma NothingCopied(c: Config, w: World)
    requires MoveInv(c, w) && NamesSource(c, w) && !w.note
    ensures w.copies == {} && w.target == EMPTY_SHARD
  {
  }

  /** A source that still takes rows has sent no proposal that can land. */
  lemma IdleIsHopeless(c: Config, w: World)
    requires MoveInv(c, w) && NamesSource(c, w) && !w.note
    ensures Hopeless(c, w)
  {
  }

  lemma MovedValid(c: Config, key: Bytes)
    requires Moved(c, key)
    ensures ValidKey(key)
  {
  }

  lemma NoneAcross(source: Shard, target: Shard, fate: Bytes -> Delivery)
    ensures AcrossSoFar(source, target, target, [], fate)
  {
  }

  lemma EachAcross(source: Shard, target0: Shard, target: Shard, keys: seq<Bytes>, fate: Bytes -> Delivery)
    requires AcrossSoFar(source, target0, target, keys, fate)
    ensures AllGetAcross(source, target0, keys, fate)
  {
  }

  /** The table has the shard at these addresses. */
  predicate NamedAt(c: Config, w: World, a: R.Addresses) {
    c.id in w.table.shards && w.table.shards[c.id].addresses == a
  }

  /** What the table says after these attempts: it names the new group if it did, or if one of them
      reached it with addresses it takes; and a table that did is left as it was. */
  ghost predicate Told(c: Config, w0: World, w: World, a: R.Addresses, done: seq<Attempt>) {
    && (NamesTarget(c, w) <==> NamesTarget(c, w0) || (R.CanServe(c.target, a) && LandsIn(done)))
    && (NamesTarget(c, w0) ==> w.table == w0.table)
    && (!NamesTarget(c, w0) && NamesTarget(c, w) ==> NamedAt(c, w, a))
  }

  lemma ToldNone(c: Config, w: World, a: R.Addresses)
    ensures Told(c, w, w, a, [])
  {
  }

  lemma ToldMore(c: Config, w0: World, w: World, a: R.Addresses, done: seq<Attempt>, attempt: Attempt, w': World)
    requires Told(c, w0, w, a, done) && !attempt.Heard? && attempt != NoAnswer(true) && w'.table == w.table
    ensures Told(c, w0, w', a, done + [attempt])
  {
  }

  lemma ToldLanded(c: Config, w0: World, w: World, a: R.Addresses, done: seq<Attempt>, attempt: Attempt, w': World)
    requires MoveInv(c, w) && Told(c, w0, w, a, done) && (attempt.Heard? || attempt == NoAnswer(true))
    requires w'.table == R.ApplyMove(w.table, c.id, c.source, c.target, a).0
    ensures Told(c, w0, w', a, done + [attempt])
    ensures R.ApplyMove(w.table, c.id, c.source, c.target, a).1 == R.OK <==>
            R.CanServe(c.target, a) && (NamesTarget(c, w0) ==> NamedAt(c, w0, a))
  {
    hide MoveInv, R.ApplyMove, R.CanServe;
    ProposalHeard(c, w, a);
  }

  lemma HeardLast(attempts: seq<Attempt>, i: nat)
    requires 0 < i <= |attempts| && attempts[i - 1] == Heard
    ensures Heard in attempts && LandsIn(attempts) && LandsIn(attempts[..i])
  {
    assert attempts[..i][i - 1] == Heard;
  }

  lemma ToldAll(c: Config, w0: World, w: World, a: R.Addresses, done: seq<Attempt>)
    requires Told(c, w0, w, a, done)
    ensures NamesTarget(c, w) <==> NamesTarget(c, w0) || (R.CanServe(c.target, a) && LandsIn(done))
  {
  }

  lemma CopiedStays(c: Config, w: World, a: R.Addresses)
    requires AllCopied(c, w)
    ensures AllCopied(c, w.(proposals := w.proposals + {a}))
  {
  }

  lemma CopiedTable(c: Config, w: World, t: R.Table)
    requires AllCopied(c, w)
    ensures AllCopied(c, w.(table := t))
  {
  }

  lemma Exclusive(c: Config, w: World)
    requires MoveInv(c, w)
    ensures NamesSource(c, w) ==> !NamesTarget(c, w)
  {
  }

  /** What the answer tells: accepted is the table naming the new group, and refused, that it will
      refuse this proposal for as long as it says what it says now. */
  lemma ProposalHeard(c: Config, w: World, a: R.Addresses)
    requires MoveInv(c, w)
    ensures var (table, code) := R.ApplyMove(w.table, c.id, c.source, c.target, a);
            && (code == R.OK ==> NamesTarget(c, w.(table := table)))
            && (code != R.OK ==> R.Apply(table, Proposal(c, a)).1 != R.OK)
            && (code == R.OK <==> R.CanServe(c.target, a) && (NamesTarget(c, w) ==> NamedAt(c, w, a)))
            && (NamesTarget(c, w.(table := table)) <==> NamesTarget(c, w) || R.CanServe(c.target, a))
            && (!NamesTarget(c, w) && code == R.OK ==> NamedAt(c, w.(table := table), a))
            && (NamesTarget(c, w) ==> table == w.table)
  {
    ProposalEffect(c, w, a);
    Exclusive(c, w);
  }

  lemma NoteHeld(c: Config, w: World)
    requires MoveInv(c, w) && (w.phase.Copying? || w.phase.Landed?)
    ensures w.note && w.frozen && w.sourceOpen
  {
  }

  lemma KnownAll(c: Config, keys: seq<Bytes>, w: World)
    requires w.phase.Copying?
    requires forall j :: 0 <= j < |keys| && NewestVisible(RowOf(w.source, keys[j])).Some? ==> keys[j] in w.phase.copied
    ensures Names(c, keys, w.source) ==> AllCopied(c, w)
  {
  }
}
