/**
  Moving a shard from one group to another while clients go on writing: freeze, note, copy,
  propose, and then commit or abort, with a crash between any two steps and proposals that are
  applied late or whose answers are lost.
*/
module ShardMove {
  import opened Common
  import opened ByteOrder
  import opened Rows
  import opened Shards
  import R = Routing

  /** What the move is of: the shard's id and range, the nodes it leaves and the nodes it goes to. */
  datatype Config = Config(id: nat, lo: Bytes, hi: Bytes, source: seq<int>, target: seq<int>)

  predicate Moved(c: Config, key: Bytes) { ValidKey(key) && InRange(c.lo, key, c.hi) }

  /** How far the side that makes the move has got; nothing of this survives a crash. */
  datatype Phase =
    | Idle
    | Frozen                       // writes are refused; nothing is written down yet
    | Copying(copied: set<Bytes>)  // the note is written; these keys are known to be across
    | Landed                       // the table is known to name the new group

  datatype World = World(
    source: Shard,
    target: Shard,
    sourceOpen: bool,
    frozen: bool,
    note: bool,
    table: R.Table,
    phase: Phase,
    copies: set<Command>,                   // every copy of a row ever sent to the new group
    proposals: set<R.Addresses>,            // every proposal to the table ever sent, by its addresses
    truth: map<Bytes, (nat, Cell)>)         // by key, the newest version ever acknowledged, by timestamp

  datatype Step =
    | WriteSource(command: Command, now: int)
    | WriteTarget(command: Command, now: int)
    | TableMoves(table: R.Table)            // some other command of the table's
    | Begin
    | CannotBegin
    | WriteNote
    | SendCopy(key: Bytes)
    | LandCopy(command: Command)            // at once, late, or again
    | KnowCopied(key: Bytes)                // the copy was answered with success, or is seen to be there
    | Propose(addresses: R.Addresses)       // worked out anew for every call
    | LandProposal(addresses: R.Addresses)  // at once, late, or again
    | HearLanded
    | HearRefused(addresses: R.Addresses)
    | CommitMove
    | Crash

  function NamedNodes(c: Config, w: World): seq<int> {
    if c.id in w.table.shards then w.table.shards[c.id].nodes else []
  }

  predicate NamesTarget(c: Config, w: World) { NamedNodes(c, w) == c.target }

  predicate NamesSource(c: Config, w: World) { NamedNodes(c, w) == c.source }

  function Proposal(c: Config, addresses: R.Addresses): R.Command { R.MoveShard(c.id, c.source, c.target, addresses) }

  /** No proposal that was sent can land, now or later. */
  ghost predicate Hopeless(c: Config, w: World) {
    forall a :: a in w.proposals ==> !R.CanServe(c.target, a)
  }

  /** What a read at the newest timestamp finds in a row, lock or no lock. */
  function NewestVisible(row: Row): Option<(Bytes, nat)> { VisibleAt(row, MAX_TS) }

  /** The copy of a row: the version it is, with the write record of whoever committed it. */
  function CopyOf(key: Bytes, row: Row): Command
    requires NewestVisible(row).Some?
  {
    var (value, ts) := NewestVisible(row).value;
    var write := Newest(row.writes);
    Set(key, value, Some(ts), if write == Some(ts) then Some(row.writes[ts]) else None)
  }

  ghost predicate NoLocks(c: Config, s: Shard) {
    forall k :: Moved(c, k) ==> RowOf(s, k).locks == map[]
  }

  /** Every row of the source is known to be in the new group. */
  ghost predicate AllCopied(c: Config, w: World) {
    w.phase.Copying? && forall k :: Moved(c, k) && NewestVisible(RowOf(w.source, k)).Some? ==> k in w.phase.copied
  }

  /** The version a command wrote, if it changed any. */
  function Added(row: Row, after: Row): Option<(nat, Cell)> {
    var gained := map t | t in after.versions && (t !in row.versions || row.versions[t] != after.versions[t])
                    :: after.versions[t];
    match Newest(gained)
    case None => None
    case Some(t) => Some((t, after.versions[t]))
  }

  /** A version older than one acknowledged before is not the newest. */
  function Acknowledged(truth: map<Bytes, (nat, Cell)>, before: Shard, after: Shard, key: Bytes)
      : map<Bytes, (nat, Cell)>
  {
    match Added(RowOf(before, key), RowOf(after, key))
    case None => truth
    case Some(v) => if key in truth && v.0 < truth[key].0 then truth else truth[key := v]
  }

  ghost predicate Enabled(c: Config, w: World, s: Step) {
    match s
    case WriteSource(x, _) => w.sourceOpen && Keyed(x) && !(w.frozen && WritesNewData(x))
    case WriteTarget(x, _) => NamesTarget(c, w) && Keyed(x)
    case TableMoves(t) =>
      c.id in w.table.shards && c.id in t.shards && t.shards[c.id].nodes == w.table.shards[c.id].nodes
    case Begin => w.phase == Idle && !w.note && w.sourceOpen && NamesSource(c, w)
    case CannotBegin => w.phase == Frozen
    case WriteNote => w.phase == Frozen && NoLocks(c, w.source)
    case SendCopy(key) => w.phase.Copying? && Moved(c, key) && NewestVisible(RowOf(w.source, key)).Some?
    case LandCopy(x) => x in w.copies && Keyed(x)
    case KnowCopied(key) =>
      && w.phase.Copying? && Moved(c, key) && NewestVisible(RowOf(w.source, key)).Some?
      && NewestVisible(RowOf(w.target, key)).Some?
      && NewestVisible(RowOf(w.target, key)).value.1 == NewestVisible(RowOf(w.source, key)).value.1
    case Propose(_) => AllCopied(c, w)
    case LandProposal(a) => a in w.proposals
    case HearLanded => w.phase.Copying? && NamesTarget(c, w)
    case HearRefused(a) => w.phase.Copying? && a in w.proposals && R.Apply(w.table, Proposal(c, a)).1 != R.OK
    case CommitMove => w.phase == Landed
    case Crash => true
  }

  ghost function Next(c: Config, w: World, s: Step): World
    requires Enabled(c, w, s)
  {
    match s
    case WriteSource(x, now) =>
      var after := Apply(w.source, x, now).0;
      w.(source := after, truth := Acknowledged(w.truth, w.source, after, x.key))
    case WriteTarget(x, now) =>
      var after := Apply(w.target, x, now).0;
      w.(target := after, truth := Acknowledged(w.truth, w.target, after, x.key))
    case TableMoves(t) => w.(table := t)
    case Begin => w.(frozen := true, phase := Frozen)
    case CannotBegin => w.(frozen := false, phase := Idle)
    case WriteNote => w.(note := true, phase := Copying({}))
    case SendCopy(key) => w.(copies := w.copies + {CopyOf(key, RowOf(w.source, key))})
    case LandCopy(x) => w.(target := Apply(w.target, x, 0).0)
    case KnowCopied(key) => w.(phase := Copying(w.phase.copied + {key}))
    case Propose(a) => w.(proposals := w.proposals + {a})
    case LandProposal(a) => w.(table := R.Apply(w.table, Proposal(c, a)).0)
    case HearLanded => w.(phase := Landed)
    case HearRefused(_) =>
      w.(phase := Idle, note := false, frozen := false, target := EMPTY_SHARD, copies := {})
    case CommitMove => w.(phase := Idle, note := false, sourceOpen := false)
    case Crash => w.(phase := if w.note then Copying({}) else Idle, frozen := w.note)
  }

  // ---- what clients and the table are asked for -----------------------------------

  /** A value at `t` under a tombstone that the row does not hold: nothing there hides it. */
  ghost predicate Unburies(row: Row, truth: Option<(nat, Cell)>, t: nat, cell: Cell) {
    && cell.Value? && truth.Some? && t < truth.value.0 && truth.value.0 !in row.versions
    && forall u :: u in row.versions ==> u <= t
  }

  /** The copy `x` would put another value in the place of this version. */
  predicate Undoes(x: Command, key: Bytes, t: nat, cell: Cell) {
    x.Set? && x.key == key && x.timestamp == Some(t) && cell != Value(x.value)
  }

  /** Some copy that is on its way to the new group, or that may still be sent there. */
  ghost predicate OnItsWay(w: World, x: Command) {
    || x in w.copies
    || (w.note && x.Set? && NewestVisible(RowOf(w.source, x.key)).Some? && x == CopyOf(x.key, RowOf(w.source, x.key)))
  }

  ghost predicate MayBeUndone(w: World, key: Bytes, t: nat, cell: Cell) {
    exists x :: OnItsWay(w, x) && Undoes(x, key, t, cell)
  }

  /** The version a write to `s` adds does not come out from under a deletion that was not copied,
      and, if it is the newest, is not at the timestamp of another value that a copy may still
      bring. */
  ghost predicate SafeWrite(w: World, s: Shard, x: Command, now: int, copied: bool) {
    Keyed(x) ==>
      var row := RowOf(s, x.key);
      match Added(row, RowOf(Apply(s, x, now).0, x.key))
      case None => true
      case Some(v) =>
        && !Unburies(row, TruthOf(w.truth, x.key), v.0, v.1)
        && !(copied && (x.key in w.truth ==> v.0 >= w.truth[x.key].0) && MayBeUndone(w, x.key, v.0, v.1))
  }

  ghost predicate Safe(c: Config, w: World, s: Step) {
    match s
    case WriteSource(x, now) => Keyed(x) && Moved(c, x.key) ==> SafeWrite(w, w.source, x, now, false)
    case WriteTarget(x, now) => Keyed(x) && Moved(c, x.key) ==> SafeWrite(w, w.target, x, now, true)
    case HearRefused(_) => Hopeless(c, w)
    case _ => true
  }

  ghost predicate Run(c: Config, worlds: seq<World>, steps: seq<Step>) {
    && |worlds| == |steps| + 1 && Initial(c, worlds[0])
    && forall i :: 0 <= i < |steps| ==>
         Enabled(c, worlds[i], steps[i]) && Safe(c, worlds[i], steps[i])
         && worlds[i + 1] == Next(c, worlds[i], steps[i])
  }

  // ---- what the serving group holds -----------------------------------------------

  function TruthOf(truth: map<Bytes, (nat, Cell)>, key: Bytes): Option<(nat, Cell)> {
    if key in truth then Some(truth[key]) else None
  }

  function VisibleOf(truth: Option<(nat, Cell)>): Option<(Bytes, nat)> {
    match truth
    case None => None
    case Some(v) => if v.1.Tombstone? then None else Some((v.1.bytes, v.0))
  }

  /** A row reads as the newest version acknowledged for its key, at that version's timestamp. */
  ghost predicate Shows(row: Row, truth: Option<(nat, Cell)>) {
    && NewestVisible(row) == VisibleOf(truth)
    && forall t :: t in row.versions ==> ValidTs(t) && truth.Some? && t <= truth.value.0
  }

  function Serving(c: Config, w: World): Shard { if NamesTarget(c, w) then w.target else w.source }

  /** The group the table names holds the newest acknowledged version of every key it has. */
  ghost predicate ServingShows(c: Config, w: World) {
    forall k :: Moved(c, k) ==> Shows(RowOf(Serving(c, w), k), TruthOf(w.truth, k))
  }

  /** At most one of the two groups admits new rows: the old one until it is frozen or closed, the
      new one once the table names it. */
  ghost predicate OneAdmits(c: Config, w: World) {
    !(w.sourceOpen && !w.frozen && NamesTarget(c, w))
  }

  ghost predicate ConfigSound(c: Config) {
    c.source != c.target && forall n :: n in c.target ==> n !in c.source
  }

  ghost predicate Initial(c: Config, w: World) {
    && ConfigSound(c) && c.id in w.table.shards && NamesSource(c, w)
    && w.target == EMPTY_SHARD && w.sourceOpen && !w.frozen && !w.note && w.phase == Idle && w.copies == {}
    && w.proposals == {}
    && ServingShows(c, w)
  }

  // ---- the invariant --------------------------------------------------------------

  ghost predicate TableSound(c: Config, w: World) {
    && ConfigSound(c) && c.id in w.table.shards && (NamesSource(c, w) || NamesTarget(c, w))
    && (NamesTarget(c, w) ==> !Hopeless(c, w))
  }

  ghost predicate PhaseSound(c: Config, w: World) {
    && (w.note ==> w.frozen && w.sourceOpen && NoLocks(c, w.source))
    && (w.phase.Copying? || w.phase.Landed? ==> w.note)
    && (w.phase.Frozen? ==> w.frozen && !w.note && NamesSource(c, w))
    && (w.phase.Landed? ==> NamesTarget(c, w))
    && (NamesTarget(c, w) ==> w.note || !w.sourceOpen)
    && (!w.sourceOpen ==> NamesTarget(c, w))
  }

  /** Landing `x` in a row that holds the newest version changes nothing that is shown. */
  ghost predicate Harmless(row: Row, truth: Option<(nat, Cell)>, x: Command) {
    && x.Set? && x.timestamp.Some? && truth.Some? && truth.value.0 in row.versions
    && 0 <= x.timestamp.value <= truth.value.0
    && (x.timestamp.value == truth.value.0 ==> truth.value.1 == Value(x.value))
  }

  ghost predicate IsCopy(c: Config, source: Shard, x: Command) {
    && x.Set? && Moved(c, x.key) && x.timestamp.Some? && x.timestamp.value >= 0
    && NewestVisible(RowOf(source, x.key)) == Some((x.value, x.timestamp.value as nat))
  }

  /** All a row of the new group holds is the version its row in the old group reads as. */
  ghost predicate OnlyCopies(source: Row, target: Row) {
    forall t :: t in target.versions ==>
      target.versions[t].Value? && NewestVisible(source) == Some((target.versions[t].bytes, t))
  }

  ghost predicate Across(source: Row, target: Row) {
    NewestVisible(source).Some? ==> NewestVisible(source).value.1 in target.versions
  }

  ghost predicate CopiesSound(c: Config, w: World) {
    && (NamesSource(c, w) && !w.note ==> w.copies == {} && w.target == EMPTY_SHARD)
    && (NamesSource(c, w) ==>
          && (forall x :: x in w.copies ==> IsCopy(c, w.source, x))
          && (forall k :: Moved(c, k) ==> OnlyCopies(RowOf(w.source, k), RowOf(w.target, k))))
    && (NamesTarget(c, w) ==> forall x :: x in w.copies ==> HarmlessCopy(c, w, x))
    && (NamesTarget(c, w) && w.note ==> forall k :: Moved(c, k) ==> SourceHarmless(w, k))
    && (w.phase.Copying? ==> forall k :: k in w.phase.copied ==> Moved(c, k))
    && (w.phase.Copying? && NamesSource(c, w) ==>
          forall k :: k in w.phase.copied ==> Across(RowOf(w.source, k), RowOf(w.target, k)))
    && (NamesSource(c, w) && !Hopeless(c, w) ==>
          w.note && forall k :: Moved(c, k) ==> Across(RowOf(w.source, k), RowOf(w.target, k)))
  }

  ghost predicate HarmlessCopy(c: Config, w: World, x: Command) {
    x.Set? && Moved(c, x.key) && Harmless(RowOf(w.target, x.key), TruthOf(w.truth, x.key), x)
  }

  /** Whatever copy of the row may still be sent. */
  ghost predicate SourceHarmless(w: World, k: Bytes) {
    NewestVisible(RowOf(w.source, k)).Some? ==>
      Harmless(RowOf(w.target, k), TruthOf(w.truth, k), CopyOf(k, RowOf(w.source, k)))
  }

  ghost predicate MoveInv(c: Config, w: World) {
    TableSound(c, w) && PhaseSound(c, w) && ServingShows(c, w) && CopiesSound(c, w)
  }

  lemma InitialInv(c: Config, w: World)
    requires Initial(c, w)
    ensures MoveInv(c, w)
  {
  }

  // ---- the steps of the side that makes the move ----------------------------------

  lemma ProposeStep(c: Config, w: World, a: R.Addresses)
    requires AllCopied(c, w)
    ensures Enabled(c, w, Propose(a)) && Next(c, w, Propose(a)) == w.(proposals := w.proposals + {a})
  {
  }

  lemma LandProposalStep(c: Config, w: World, a: R.Addresses)
    requires a in w.proposals
    ensures Enabled(c, w, LandProposal(a))
    ensures Next(c, w, LandProposal(a)) == w.(table := R.ApplyMove(w.table, c.id, c.source, c.target, a).0)
  {
  }

  lemma RefusedStep(c: Config, w: World, a: R.Addresses)
    requires w.phase.Copying? && a in w.proposals && R.Apply(w.table, Proposal(c, a)).1 != R.OK
    ensures Enabled(c, w, HearRefused(a))
    ensures Next(c, w, HearRefused(a)) ==
            w.(phase := Idle, note := false, frozen := false, target := EMPTY_SHARD, copies := {})
  {
  }

  lemma LandedStep(c: Config, w: World)
    requires w.phase.Copying? && NamesTarget(c, w)
    ensures Enabled(c, w, HearLanded) && Next(c, w, HearLanded) == w.(phase := Landed)
  {
  }

  lemma CommitStep(c: Config, w: World)
    requires w.phase == Landed
    ensures Enabled(c, w, CommitMove) && Next(c, w, CommitMove) == w.(phase := Idle, note := false, sourceOpen := false)
  {
  }

  lemma BeginStep(c: Config, w: World)
    requires w.phase == Idle && !w.note && w.sourceOpen && NamesSource(c, w)
    ensures Enabled(c, w, Begin) && Next(c, w, Begin) == w.(frozen := true, phase := Frozen)
  {
  }

  lemma CannotStep(c: Config, w: World)
    requires w.phase == Frozen
    ensures Enabled(c, w, CannotBegin) && Next(c, w, CannotBegin) == w.(frozen := false, phase := Idle)
  {
  }

  lemma NoteStep(c: Config, w: World)
    requires w.phase == Frozen && NoLocks(c, w.source)
    ensures Enabled(c, w, WriteNote) && Next(c, w, WriteNote) == w.(note := true, phase := Copying({}))
  {
  }

  lemma SendStep(c: Config, w: World, key: Bytes)
    requires w.phase.Copying? && Moved(c, key) && NewestVisible(RowOf(w.source, key)).Some?
    ensures Enabled(c, w, SendCopy(key))
    ensures Next(c, w, SendCopy(key)) == w.(copies := w.copies + {CopyOf(key, RowOf(w.source, key))})
  {
  }

  lemma LandStep(c: Config, w: World, x: Command)
    requires x in w.copies && Keyed(x)
    ensures Enabled(c, w, LandCopy(x)) && Next(c, w, LandCopy(x)) == w.(target := Apply(w.target, x, 0).0)
  {
  }

  lemma KnowStep(c: Config, w: World, key: Bytes)
    requires w.phase.Copying? && Moved(c, key) && NewestVisible(RowOf(w.source, key)).Some?
    requires NewestVisible(RowOf(w.target, key)).Some?
    requires NewestVisible(RowOf(w.target, key)).value.1 == NewestVisible(RowOf(w.source, key)).value.1
    ensures Enabled(c, w, KnowCopied(key))
    ensures Next(c, w, KnowCopied(key)) == w.(phase := Copying(w.phase.copied + {key}))
  {
  }
}
