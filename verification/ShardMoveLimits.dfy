/** What a move needs of its clients and of its proposals, and no more: every step that is left out
    loses a row, or has both groups take rows, within three more steps. */
module ShardMoveLimits {
  import opened Common
  import opened ByteOrder
  import opened Rows
  import opened Shards
  import R = Routing
  import opened ShardMove
  import opened ShardMoveProof

  /** Steps that keep every premise lead from `w` to `w'`. */
  ghost predicate Leads(c: Config, w: World, steps: seq<Step>, w': World)
    decreases |steps|
  {
    if steps == [] then w' == w
    else Enabled(c, w, steps[0]) && Safe(c, w, steps[0]) && Leads(c, Next(c, w, steps[0]), steps[1..], w')
  }

  lemma {:induction false} LeadsKeeps(c: Config, w: World, steps: seq<Step>, w': World)
    requires MoveInv(c, w) && Leads(c, w, steps, w')
    ensures MoveInv(c, w')
    decreases |steps|
  {
    hide MoveInv, Next, Enabled, Safe;
    if steps != [] {
      NextKeeps(c, w, steps[0]);
      LeadsKeeps(c, Next(c, w, steps[0]), steps[1..], w');
    }
  }

  lemma LeadsOne(c: Config, w: World, s: Step)
    requires Enabled(c, w, s) && Safe(c, w, s)
    ensures Leads(c, w, [s], Next(c, w, s))
  {
    hide Next, Enabled, Safe;
    assert [s][1..] == [];
    assert Leads(c, Next(c, w, s), [], Next(c, w, s));
  }

  lemma LeadsOn(c: Config, w: World, s: Step, steps: seq<Step>, w': World)
    requires Enabled(c, w, s) && Safe(c, w, s) && Leads(c, Next(c, w, s), steps, w')
    ensures Leads(c, w, [s] + steps, w')
  {
    hide Next, Enabled, Safe;
    assert ([s] + steps)[1..] == steps;
  }

  /** What `NoRowLost` rules out. */
  ghost predicate Lost(c: Config, w: World) {
    !OneAdmits(c, w) || exists k :: LostKey(c, w, k)
  }

  ghost predicate LostKey(c: Config, w: World, k: Bytes) {
    Moved(c, k) && NewestVisible(RowOf(Serving(c, w), k)) != VisibleOf(TruthOf(w.truth, k))
  }

  lemma NotLost(c: Config, w: World)
    requires MoveInv(c, w)
    ensures !Lost(c, w)
  {
    hide NewestVisible, Moved, CopiesSound;
    forall k ensures !LostKey(c, w, k) {
      assert Moved(c, k) ==> Shows(RowOf(Serving(c, w), k), TruthOf(w.truth, k));
    }
  }

  // ---- writes ---------------------------------------------------------------------

  /** A value from under a deletion the group does not hold is read at once. */
  lemma UnburiedIsLost(c: Config, w: World, s: Shard, x: Command, now: int, w': World)
    requires Keyed(x) && Moved(c, x.key) && Shows(RowOf(s, x.key), TruthOf(w.truth, x.key))
    requires var added := Added(RowOf(s, x.key), RowOf(Apply(s, x, now).0, x.key));
             added.Some? && Unburies(RowOf(s, x.key), TruthOf(w.truth, x.key), added.value.0, added.value.1)
    requires Serving(c, w') == Apply(s, x, now).0 && w'.truth == Acknowledged(w.truth, s, Apply(s, x, now).0, x.key)
    ensures Lost(c, w')
  {
    hide Apply, Acknowledged, Added, Moved;
    var after := Apply(s, x, now).0;
    var t, cell := AcknowledgedIs(w.truth, s, x, now);
    var row, row' := RowOf(s, x.key), RowOf(after, x.key);
    ShownIfValue(row, TruthOf(w.truth, x.key));
    VisibleNewest(row', t);
    assert LostKey(c, w', x.key);
  }

  lemma ShownIfValue(row: Row, truth: Option<(nat, Cell)>)
    requires Shows(row, truth) && truth.Some? && truth.value.0 !in row.versions
    ensures truth.value.1.Tombstone?
  {
    if truth.value.1.Value? { ShownIsHeld(row, truth); }
  }

  /** A copy that lands on a version rewritten since puts the old value back. */
  lemma UndoneIsLost(c: Config, w: World, x: Command)
    requires NamesTarget(c, w) && x in w.copies && x.Set? && Moved(c, x.key) && x.timestamp.Some?
    requires ValidTs(x.timestamp.value)
    requires var truth := TruthOf(w.truth, x.key);
             truth.Some? && truth.value.0 == x.timestamp.value && truth.value.1 != Value(x.value)
             && forall u :: u in RowOf(w.target, x.key).versions ==> u <= truth.value.0
    ensures Enabled(c, w, LandCopy(x)) && Safe(c, w, LandCopy(x)) && Lost(c, Next(c, w, LandCopy(x)))
  {
    var w' := Next(c, w, LandCopy(x));
    AppliedRow(w.target, x, 0);
    var row' := RowOf(w'.target, x.key);
    assert row'.versions == RowOf(w.target, x.key).versions[x.timestamp.value as nat := Value(x.value)];
    VisibleNewest(row', x.timestamp.value as nat);
    assert LostKey(c, w', x.key);
  }

  /** Every write that is left out loses a row: at once, or when a copy that may still come does. */
  lemma UnsafeTargetLoses(c: Config, w: World, x: Command, now: int) returns (steps: seq<Step>, w': World)
    requires MoveInv(c, w) && Enabled(c, w, WriteTarget(x, now)) && !Safe(c, w, WriteTarget(x, now))
    ensures |steps| <= 3 && Leads(c, Next(c, w, WriteTarget(x, now)), steps, w') && Lost(c, w')
  {
    hide Apply, Acknowledged, Added, Unburies, CopiesSound, Lost, Moved;
    var w1 := Next(c, w, WriteTarget(x, now));
    assert Shows(RowOf(w.target, x.key), TruthOf(w.truth, x.key));
    var added := Added(RowOf(w.target, x.key), RowOf(w1.target, x.key)).value;
    if Unburies(RowOf(w.target, x.key), TruthOf(w.truth, x.key), added.0, added.1) {
      UnburiedIsLost(c, w, w.target, x, now, w1);
      steps, w' := [], w1;
    } else {
      var y :| OnItsWay(w, y) && Undoes(y, x.key, added.0, added.1);
      RewrittenNewest(w, x, now);
      if y in w.copies {
        UndoneIsLost(c, w1, y);
        LeadsOne(c, w1, LandCopy(y));
        steps, w' := [LandCopy(y)], Next(c, w1, LandCopy(y));
      } else {
        var w2 := Next(c, w1, Crash);
        var w3 := Next(c, w2, SendCopy(y.key));
        UndoneIsLost(c, w3, y);
        w' := Next(c, w3, LandCopy(y));
        LeadsOne(c, w3, LandCopy(y));
        LeadsOn(c, w2, SendCopy(y.key), [LandCopy(y)], w');
        LeadsOn(c, w1, Crash, [SendCopy(y.key)] + [LandCopy(y)], w');
        steps := [Crash] + ([SendCopy(y.key)] + [LandCopy(y)]);
      }
    }
  }

  lemma RewrittenNewest(w: World, x: Command, now: int)
    requires Keyed(x) && Shows(RowOf(w.target, x.key), TruthOf(w.truth, x.key))
    requires var added := Added(RowOf(w.target, x.key), RowOf(Apply(w.target, x, now).0, x.key));
             added.Some? && (x.key in w.truth ==> added.value.0 >= w.truth[x.key].0)
    ensures var after := Apply(w.target, x, now).0;
            var added := Added(RowOf(w.target, x.key), RowOf(after, x.key)).value;
            && ValidTs(added.0) && TruthOf(Acknowledged(w.truth, w.target, after, x.key), x.key) == Some(added)
            && forall u :: u in RowOf(after, x.key).versions ==> u <= added.0
  {
    hide Apply, Acknowledged, Added, NewestVisible;
    var t, cell := AcknowledgedIs(w.truth, w.target, x, now);
  }

  /** And a refusal that is believed while some proposal may land has both groups take rows. */
  lemma RefusedLoses(c: Config, w: World, a: R.Addresses) returns (steps: seq<Step>, w': World)
    requires MoveInv(c, w) && Enabled(c, w, HearRefused(a)) && !Hopeless(c, w)
    ensures |steps| <= 1 && Leads(c, Next(c, w, HearRefused(a)), steps, w') && !OneAdmits(c, w')
  {
    hide CopiesSound, ServingShows, R.Apply;
    var w1 := Next(c, w, HearRefused(a));
    if NamesTarget(c, w) {
      steps, w' := [], w1;
    } else {
      var b :| b in w.proposals && R.CanServe(c.target, b);
      ProposalEffect(c, w1, b);
      LeadsOne(c, w1, LandProposal(b));
      steps, w' := [LandProposal(b)], Next(c, w1, LandProposal(b));
    }
  }

  /** The premises on steps are exact: in every state a move can be in, a step that is left out
      leads, through at most three more steps, to a row that is lost or to two groups that both
      take rows; and only such a step does. */
  lemma UnsafeLoses(c: Config, w: World, s: Step) returns (steps: seq<Step>, w': World)
    requires MoveInv(c, w) && Enabled(c, w, s) && !Safe(c, w, s)
    ensures |steps| <= 3 && Leads(c, Next(c, w, s), steps, w') && Lost(c, w')
  {
    match s {
      case WriteSource(x, now) =>
        steps, w' := [], Next(c, w, s);
        UnsafeSourceLoses(c, w, x, now);
      case WriteTarget(x, now) => steps, w' := UnsafeTargetLoses(c, w, x, now);
      case HearRefused(a) => steps, w' := RefusedLoses(c, w, a);
    }
  }

  lemma UnsafeSourceLoses(c: Config, w: World, x: Command, now: int)
    requires MoveInv(c, w) && Enabled(c, w, WriteSource(x, now)) && !Safe(c, w, WriteSource(x, now))
    ensures Lost(c, Next(c, w, WriteSource(x, now)))
  {
    hide Apply, Acknowledged, Added, Unburies, CopiesSound, Lost, Moved, Shows;
    if NamesTarget(c, w) {
      FrozenAddsNothing(c, w, x, now);
      assert false;
    }
    UnburiedIsLost(c, w, w.source, x, now, Next(c, w, WriteSource(x, now)));
  }

  lemma FrozenAddsNothing(c: Config, w: World, x: Command, now: int)
    requires PhaseSound(c, w) && NamesTarget(c, w) && Enabled(c, w, WriteSource(x, now)) && Moved(c, x.key)
    ensures Added(RowOf(w.source, x.key), RowOf(Apply(w.source, x, now).0, x.key)) == None
  {
    hide Added, Acknowledged;
    FrozenWrite(c, w.source, w.truth, x, now);
    NothingAdded(RowOf(w.source, x.key), RowOf(Apply(w.source, x, now).0, x.key));
  }

  lemma SafeIff(c: Config, w: World, s: Step)
    requires MoveInv(c, w) && Enabled(c, w, s)
    ensures MoveInv(c, Next(c, w, s)) <==> Safe(c, w, s)
  {
    hide MoveInv, Next, Enabled, Safe, Lost;
    if Safe(c, w, s) {
      NextKeeps(c, w, s);
    } else {
      var steps, w' := UnsafeLoses(c, w, s);
      if MoveInv(c, Next(c, w, s)) {
        LeadsKeeps(c, Next(c, w, s), steps, w');
        NotLost(c, w');
      }
    }
  }

  // ---- a run for each -------------------------------------------------------------

  lemma {:induction false} LeadsThen(c: Config, w: World, steps: seq<Step>, w1: World, s: Step)
    requires Leads(c, w, steps, w1) && Enabled(c, w1, s) && Safe(c, w1, s)
    ensures Leads(c, w, steps + [s], Next(c, w1, s))
    decreases |steps|
  {
    hide Next, Enabled, Safe;
    if steps == [] {
      assert steps + [s] == [s];
      LeadsOne(c, w, s);
    } else {
      assert (steps + [s])[0] == steps[0] && (steps + [s])[1..] == steps[1..] + [s];
      LeadsThen(c, Next(c, w, steps[0]), steps[1..], w1, s);
    }
  }

  const MOVE := Config(0, [], [255], [1], [2])
  const KEY: Bytes := [1]
  const REACHED: R.Addresses := map[2 := "node 2"]

  function TableOn(nodes: seq<int>, addresses: R.Addresses, version: nat): R.Table {
    R.Table(version, map[0 := R.Placement([], [255], nodes, addresses, None, 0)])
  }

  /** A shard of one row on node 1, before anything has happened. */
  function Before(row: Row, version: (nat, Cell)): World {
    World(Shard(map[KEY := row], version.0), EMPTY_SHARD, true, false, false, TableOn([1], map[], 0), Idle, {}, {},
          map[KEY := version])
  }

  lemma BeforeInitial(row: Row, version: (nat, Cell))
    requires Shows(row, Some(version))
    ensures Initial(MOVE, Before(row, version))
  {
    var w := Before(row, version);
    forall k | Moved(MOVE, k) ensures Shows(RowOf(w.source, k), TruthOf(w.truth, k)) {
      if k != KEY { assert AtMost(EMPTY_ROW.versions, MAX_TS) == map[]; }
    }
  }

  /** Up to the note. */
  lemma Noted(row: Row, version: (nat, Cell)) returns (steps: seq<Step>, w: World)
    requires Shows(row, Some(version)) && row.locks == map[]
    ensures Leads(MOVE, Before(row, version), steps, w)
    ensures w == Before(row, version).(frozen := true, note := true, phase := Copying({}))
  {
    hide Leads, Shows, InRange;
    var w0 := Before(row, version);
    BeginStep(MOVE, w0);
    LeadsOne(MOVE, w0, Begin);
    var w1 := Next(MOVE, w0, Begin);
    NoteStep(MOVE, w1);
    LeadsThen(MOVE, w0, [Begin], w1, WriteNote);
    steps, w := [Begin] + [WriteNote], Next(MOVE, w1, WriteNote);
  }

  /** From everything copied to the table's switch. */
  lemma Switched(w0: World, steps: seq<Step>, w: World) returns (steps': seq<Step>, w': World)
    requires Leads(MOVE, w0, steps, w) && AllCopied(MOVE, w) && w.table == TableOn([1], map[], 0)
    ensures Leads(MOVE, w0, steps', w')
    ensures w' == w.(table := TableOn([2], REACHED, 1), proposals := w.proposals + {REACHED})
  {
    hide Leads, AllCopied;
    ProposeStep(MOVE, w, REACHED);
    LeadsThen(MOVE, w0, steps, w, Propose(REACHED));
    var w1 := Next(MOVE, w, Propose(REACHED));
    LandProposalStep(MOVE, w1, REACHED);
    LeadsThen(MOVE, w0, steps + [Propose(REACHED)], w1, LandProposal(REACHED));
    steps', w' := steps + [Propose(REACHED)] + [LandProposal(REACHED)], Next(MOVE, w1, LandProposal(REACHED));
    assert w'.table.shards == TableOn([2], REACHED, 1).shards;
  }

  /** From some initial state, steps that keep every premise, one of `s`'s kind that does not, and at
      most three more that do, lead to a loss. */
  ghost predicate LosesBy(w0: World, steps: seq<Step>, w: World, s: Step, more: seq<Step>, w': World) {
    && Initial(MOVE, w0) && Leads(MOVE, w0, steps, w)
    && Enabled(MOVE, w, s) && Leads(MOVE, Next(MOVE, w, s), more, w') && |more| <= 3 && Lost(MOVE, w')
  }

  lemma LosesAfter(w0: World, steps: seq<Step>, w: World, s: Step) returns (more: seq<Step>, w': World)
    requires Initial(MOVE, w0) && Leads(MOVE, w0, steps, w) && Enabled(MOVE, w, s) && !Safe(MOVE, w, s)
    ensures LosesBy(w0, steps, w, s, more, w')
  {
    hide Leads, Lost, MoveInv, Initial, Enabled, Safe, Next;
    InitialInv(MOVE, w0);
    LeadsKeeps(MOVE, w0, steps, w);
    more, w' := UnsafeLoses(MOVE, w, s);
  }

  /** A deletion is not copied: a write without a timestamp, which the new group stamps by what it
      has seen itself, brings a deleted key back. */
  lemma DeletionForgotten() returns (w0: World, steps: seq<Step>, w: World, s: Step, more: seq<Step>, w': World)
    ensures LosesBy(w0, steps, w, s, more, w') && s == WriteTarget(Set(KEY, [7], None, None), 0)
  {
    hide Leads, LosesBy, Initial, AllCopied, Safe, Enabled;
    var row := Row(map[10 := Tombstone], map[], map[]);
    VisibleNewest(row, 10);
    BeforeInitial(row, (10, Tombstone));
    w0 := Before(row, (10, Tombstone));
    var noted, w1 := Noted(row, (10, Tombstone));
    NothingToCopy(w1);
    steps, w := Switched(w0, noted, w1);
    s := WriteTarget(Set(KEY, [7], None, None), 0);
    BringsBack(w);
    more, w' := LosesAfter(w0, steps, w, s);
  }

  lemma BringsBack(w: World)
    requires w.target == EMPTY_SHARD && w.table == TableOn([2], REACHED, 1) && w.truth == map[KEY := (10, Tombstone)]
    ensures var s := WriteTarget(Set(KEY, [7], None, None), 0); Enabled(MOVE, w, s) && !Safe(MOVE, w, s)
  {
    var x := Set(KEY, [7], None, None);
    var after := Row(map[1 := Value([7])], map[], map[]);
    assert RowOf(Apply(w.target, x, 0).0, KEY) == after;
    assert after.versions == EMPTY_ROW.versions[1 := Value([7])];
    assert 1 in after.versions && 1 !in EMPTY_ROW.versions;
    OneAdded(EMPTY_ROW, after, 1, Value([7]));
    assert Unburies(EMPTY_ROW, TruthOf(w.truth, KEY), 1, Value([7]));
    assert Moved(MOVE, KEY);
  }

  lemma NothingToCopy(w: World)
    requires w.phase.Copying? && w.source.rows.Keys == {KEY} && NewestVisible(RowOf(w.source, KEY)).None?
    ensures AllCopied(MOVE, w)
  {
    assert AtMost(EMPTY_ROW.versions, MAX_TS) == map[];
  }

  /** A proposal whose answer was lost lands after a later one, with an address missing, was refused
      and the shard given back. */
  lemma RefusedTooSoon() returns (w0: World, steps: seq<Step>, w: World, s: Step, more: seq<Step>, w': World)
    ensures LosesBy(w0, steps, w, s, more, w') && s == HearRefused(map[])
  {
    hide Leads, LosesBy, Initial, AllCopied;
    var row := Row(map[10 := Tombstone], map[], map[]);
    VisibleNewest(row, 10);
    BeforeInitial(row, (10, Tombstone));
    w0 := Before(row, (10, Tombstone));
    var noted, w1 := Noted(row, (10, Tombstone));
    NothingToCopy(w1);
    ProposeStep(MOVE, w1, REACHED);
    LeadsThen(MOVE, w0, noted, w1, Propose(REACHED));
    var w2 := Next(MOVE, w1, Propose(REACHED));
    NothingToCopy(w2);
    ProposeStep(MOVE, w2, map[]);
    LeadsThen(MOVE, w0, noted + [Propose(REACHED)], w2, Propose(map[]));
    steps, w := noted + [Propose(REACHED)] + [Propose(map[])], Next(MOVE, w2, Propose(map[]));
    assert 2 in MOVE.target && R.CanServe(MOVE.target, REACHED);
    RefusedStep(MOVE, w, map[]);
    s := HearRefused(map[]);
    more, w' := LosesAfter(w0, steps, w, s);
  }

  /** A copy that lands a second time undoes a deletion at its own timestamp. */
  lemma DeletionUndone() returns (w0: World, steps: seq<Step>, w: World, s: Step, more: seq<Step>, w': World)
    ensures LosesBy(w0, steps, w, s, more, w') && s == WriteTarget(Delete(KEY, Some(10)), 0)
  {
    hide Leads, LosesBy, Initial, AllCopied, Safe, Enabled;
    var row := Row(map[10 := Value([7])], map[], map[]);
    VisibleNewest(row, 10);
    BeforeInitial(row, (10, Value([7])));
    w0 := Before(row, (10, Value([7])));
    var noted, w1 := Noted(row, (10, Value([7])));
    var copied, w2 := Copied(w0, noted, w1);
    steps, w := Switched(w0, copied, w2);
    s := WriteTarget(Delete(KEY, Some(10)), 0);
    IsUndone(w);
    more, w' := LosesAfter(w0, steps, w, s);
  }

  lemma IsUndone(w: World)
    requires w.table == TableOn([2], REACHED, 1) && w.truth == map[KEY := (10, Value([7]))]
    requires w.target.rows == map[KEY := Row(map[10 := Value([7])], map[], map[])]
    requires Set(KEY, [7], Some(10), None) in w.copies
    ensures var s := WriteTarget(Delete(KEY, Some(10)), 0); Enabled(MOVE, w, s) && !Safe(MOVE, w, s)
  {
    var row := Row(map[10 := Value([7])], map[], map[]);
    var after := row.(versions := map[10 := Tombstone]);
    assert RowOf(Apply(w.target, Delete(KEY, Some(10)), 0).0, KEY) == after;
    assert after.versions == row.versions[10 := Tombstone];
    assert row.versions[10] != after.versions[10];
    OneAdded(row, after, 10, Tombstone);
    var x := Set(KEY, [7], Some(10), None);
    assert OnItsWay(w, x) && Undoes(x, KEY, 10, Tombstone);
    assert Moved(MOVE, KEY);
  }

  lemma Copied(w0: World, steps: seq<Step>, w: World) returns (steps': seq<Step>, w': World)
    requires Leads(MOVE, w0, steps, w) && w.phase == Copying({}) && w.target == EMPTY_SHARD && w.copies == {}
    requires w.source.rows == map[KEY := Row(map[10 := Value([7])], map[], map[])]
    ensures Leads(MOVE, w0, steps', w') && AllCopied(MOVE, w')
    ensures var row := Row(map[10 := Value([7])], map[], map[]);
            w' == w.(copies := {Set(KEY, [7], Some(10), None)}, target := Shard(map[KEY := row], 10),
                     phase := Copying({KEY}))
  {
    hide Leads;
    var row := Row(map[10 := Value([7])], map[], map[]);
    var x := Set(KEY, [7], Some(10), None);
    VisibleNewest(row, 10);
    assert Moved(MOVE, KEY) && Newest(row.writes) == None && CopyOf(KEY, row) == x;
    SendStep(MOVE, w, KEY);
    LeadsThen(MOVE, w0, steps, w, SendCopy(KEY));
    var w1 := Next(MOVE, w, SendCopy(KEY));
    LandStep(MOVE, w1, x);
    LeadsThen(MOVE, w0, steps + [SendCopy(KEY)], w1, LandCopy(x));
    var w2 := Next(MOVE, w1, LandCopy(x));
    assert RowOf(w2.target, KEY) == row;
    KnowStep(MOVE, w2, KEY);
    LeadsThen(MOVE, w0, steps + [SendCopy(KEY)] + [LandCopy(x)], w2, KnowCopied(KEY));
    steps', w' := steps + [SendCopy(KEY)] + [LandCopy(x)] + [KnowCopied(KEY)], Next(MOVE, w2, KnowCopied(KEY));
    assert AtMost(EMPTY_ROW.versions, MAX_TS) == map[];
  }
}
