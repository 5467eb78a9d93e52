/**
  One Raft node: what it keeps in memory, what it keeps in its storage, and what each
  call does to both.  A call answers with the node after it and the storage writes it made,
  in order, so that a crash between any two of them is a prefix of that list.
*/
module RaftNode {
  import opened Common
  import opened RaftProtocol

  /** The command of the entry that opens a leader's term; it never reaches the machine. */
  const NOOP: Command := []

  datatype Role = Follower | Candidate | Leader

  /** The machine's state is the sequence of commands handed to it: every deterministic
      machine is a function of that sequence. */
  type Machine = seq<Command>

  datatype Snapshot = Snapshot(index: nat, term: nat, data: Machine)

  datatype Config = Config(id: NodeId, peers: seq<NodeId>, interval: int)

  datatype Node = Node(
    cfg: Config,
    role: Role,
    term: nat,
    votedFor: Option<NodeId>,
    log: Log,                      // the entries after `base`
    base: nat,                     // newest index folded into the snapshot
    baseTerm: nat,
    commit: nat,
    applied: nat,
    votes: set<NodeId>,
    next: map<NodeId, nat>,
    matched: map<NodeId, nat>,
    machine: Machine)

  function GroupSize(n: Node): nat { |n.cfg.peers| + 1 }

  function LastIndex(n: Node): nat {
    if n.log == [] then n.base else n.log[|n.log| - 1].index
  }

  function LastLogTerm(n: Node): nat {
    if n.log == [] then n.baseTerm else n.log[|n.log| - 1].term
  }

  function EntryAt(n: Node, index: nat): Option<Entry> {
    var offset := index - n.base - 1;
    if 0 <= offset < |n.log| then Some(n.log[offset]) else None
  }

  // ---- storage --------------------------------------------------------------------

  datatype Write =
    | SaveMeta(term: nat, votedFor: Option<NodeId>)
    | PutEntry(entry: Entry)
    | Truncate(from: nat)
    | Compact(upTo: nat)
    | SaveCommit(index: nat)
    | SaveSnapshot(snapshot: Snapshot)

  datatype Disk = Disk(
    term: nat,
    votedFor: Option<NodeId>,
    entries: map<nat, Entry>,
    commit: nat,
    snapshot: Option<Snapshot>)

  const EMPTY_DISK := Disk(0, None, map[], 0, None)

  function Perform(d: Disk, w: Write): Disk {
    match w
    case SaveMeta(term, votedFor) => d.(term := term, votedFor := votedFor)
    case PutEntry(entry) => d.(entries := d.entries[entry.index := entry])
    case Truncate(from) => d.(entries := map i | i in d.entries && i < from :: d.entries[i])
    case Compact(upTo) => d.(entries := map i | i in d.entries && i > upTo :: d.entries[i])
    case SaveCommit(index) => d.(commit := index)
    case SaveSnapshot(snapshot) => d.(snapshot := Some(snapshot))
  }

  function PerformAll(d: Disk, ws: seq<Write>): Disk
    decreases |ws|
  {
    if ws == [] then d else PerformAll(Perform(d, ws[0]), ws[1..])
  }

  // ---- applying -------------------------------------------------------------------

  /** What the machine is handed for one entry: nothing, for the no-op. */
  function HandedOne(e: Entry): Machine {
    if e.command == NOOP then [] else [e.command]
  }

  /** What the machine is handed for a run of entries. */
  function Handed(log: Log): Machine {
    if log == [] then [] else Handed(log[..|log| - 1]) + HandedOne(log[|log| - 1])
  }

  /** The machine after the apply loop: every index in turn up to the commit index, skipping
      what is no longer in the log. */
  function Replayed(n: Node, applied: nat, machine: Machine): Machine
    decreases n.commit - applied
  {
    if applied >= n.commit then machine
    else match EntryAt(n, applied + 1)
      case None => Replayed(n, applied + 1, machine)
      case Some(e) => Replayed(n, applied + 1, machine + HandedOne(e))
  }

  function ApplyLoop(n: Node): Node {
    n.(applied := Max(n.applied, n.commit), machine := Replayed(n, n.applied, n.machine))
  }

  function Above(log: Log, index: nat): Log {
    if log == [] then []
    else (if log[0].index > index then [log[0]] else []) + Above(log[1..], index)
  }

  /** Fold the applied prefix into a snapshot once enough of it has piled up. */
  function MaybeSnapshot(n: Node): (Node, seq<Write>) {
    if n.cfg.interval <= 0 || n.applied - n.base < n.cfg.interval then (n, [])
    else match EntryAt(n, n.applied)
      case None => (n, [])
      case Some(e) =>
        (n.(log := Above(n.log, n.applied), base := n.applied, baseTerm := e.term),
         [SaveSnapshot(Snapshot(n.applied, e.term, n.machine)), Compact(n.applied)])
  }

  function ApplyCommitted(n: Node): (Node, seq<Write>) {
    MaybeSnapshot(ApplyLoop(n))
  }

  // ---- leading --------------------------------------------------------------------

  function Insert(x: nat, s: seq<nat>): seq<nat> {
    if s == [] || x <= s[0] then [x] + s else [s[0]] + Insert(x, s[1..])
  }

  function Sorted(s: seq<nat>): seq<nat> {
    if s == [] then [] else Insert(s[0], Sorted(s[1..]))
  }

  function MatchOf(n: Node, p: NodeId): nat {
    if p in n.matched then n.matched[p] else 0
  }

  function MatchList(n: Node): seq<nat> {
    seq(|n.cfg.peers|, i requires 0 <= i < |n.cfg.peers| => MatchOf(n, n.cfg.peers[i]))
  }

  lemma SortedLength(s: seq<nat>)
    ensures |Sorted(s)| == |s|
  {
    if s != [] { SortedLength(s[1..]); InsertLength(s[0], Sorted(s[1..])); }
  }

  lemma InsertLength(x: nat, s: seq<nat>)
    ensures |Insert(x, s)| == |s| + 1
  {
  }

  /** The index a majority of the group is believed to hold: the peers' matches in order, the
      leader's own last index after them, and the majority-th from the end. */
  function MajorityIndex(n: Node): nat {
    SortedLength(MatchList(n));
    var all := Sorted(MatchList(n)) + [LastIndex(n)];
    all[|all| - Majority(GroupSize(n))]
  }

  function UpdateCommit(n: Node): (Node, seq<Write>) {
    var c := MajorityIndex(n);
    if c <= n.commit then (n, [])
    else match EntryAt(n, c)
      case None => (n, [])
      case Some(e) =>
        if e.term != n.term then (n, [])
        else
          var (n', ws) := ApplyCommitted(n.(commit := c));
          (n', [SaveCommit(c)] + ws)
  }

  /** A leader appends one entry of its term; the command comes from a client, or is the no-op. */
  function LeaderAppend(n: Node, command: Command): (Node, seq<Write>) {
    var e := Entry(n.term, LastIndex(n) + 1, command);
    var (n', ws) := UpdateCommit(n.(log := n.log + [e]));
    (n', [PutEntry(e)] + ws)
  }

  function Positions(peers: seq<NodeId>, value: nat): map<NodeId, nat> {
    map p | p in peers :: value
  }

  function CheckVotes(n: Node): (Node, seq<Write>) {
    if n.role != Candidate || |n.votes| < Majority(GroupSize(n)) then (n, [])
    else
      LeaderAppend(n.(role := Leader, votes := {},
                      next := Positions(n.cfg.peers, LastIndex(n) + 1),
                      matched := Positions(n.cfg.peers, 0)), NOOP)
  }

  function StartElection(n: Node): (Node, seq<Write>) {
    if n.role == Leader then (n, [])
    else
      var c := n.(role := Candidate, term := n.term + 1, votedFor := Some(n.cfg.id), votes := {n.cfg.id});
      var (n', ws) := CheckVotes(c);
      (n', [SaveMeta(c.term, c.votedFor)] + ws)
  }

  function Propose(n: Node, command: Command): (Node, seq<Write>) {
    if n.role != Leader then (n, []) else LeaderAppend(n, command)
  }

  // ---- messages -------------------------------------------------------------------

  datatype VoteRequest = VoteRequest(term: nat, candidate: NodeId, lastIndex: nat, lastTerm: nat)
  datatype VoteReply = VoteReply(term: nat, granted: bool)
  datatype AppendRequest = AppendRequest(
    term: nat, leader: NodeId, prevIndex: nat, prevTerm: nat, entries: Log, commit: nat)
  datatype AppendReply = AppendReply(term: nat, success: bool, matchIndex: nat)
  datatype InstallRequest = InstallRequest(term: nat, leader: NodeId, snapshot: Snapshot)
  datatype InstallReply = InstallReply(term: nat, success: bool)

  function MakeVoteRequest(n: Node): VoteRequest {
    VoteRequest(n.term, n.cfg.id, LastIndex(n), LastLogTerm(n))
  }

  /** The whole of the leader's log past the point the peer is believed to have reached; nothing
      when that point was compacted away (the peer then needs the snapshot instead). */
  function MakeAppendRequest(n: Node, peer: NodeId): Option<AppendRequest> {
    var next := if peer in n.next then n.next[peer] else LastIndex(n) + 1;
    if next <= n.base then None
    else
      var prev := next - 1;
      var prevTerm := match EntryAt(n, prev)
        case Some(e) => e.term
        case None => if prev == n.base then n.baseTerm else 0;
      var entries := if prev < LastIndex(n) then Above(n.log, prev) else [];
      Some(AppendRequest(n.term, n.cfg.id, prev, prevTerm, entries, n.commit))
  }

  /** What hearing of a newer term does when the message is not a vote request. */
  function NewerTerm(n: Node, term: nat): Node {
    if term > n.term then n.(term := term, role := Follower, votedFor := None, votes := {}) else n
  }

  function HandleVoteRequest(n: Node, r: VoteRequest): (Node, seq<Write>, VoteReply) {
    var n1 := NewerTerm(n, r.term);
    var ws := if r.term > n.term then [SaveMeta(n1.term, None)] else [];
    if r.term < n1.term then (n1, ws, VoteReply(n1.term, false))
    else
      var canVote := n1.votedFor == None || n1.votedFor == Some(r.candidate);
      var logOk := r.lastTerm > LastLogTerm(n)
                   || (r.lastTerm == LastLogTerm(n) && r.lastIndex >= LastIndex(n));
      if canVote && logOk then
        (n1.(votedFor := Some(r.candidate)), ws + [SaveMeta(n1.term, Some(r.candidate))],
         VoteReply(n1.term, true))
      else (n1, ws, VoteReply(n1.term, false))
  }

  /** A reply to a vote request; the term it was asked in is not looked at. */
  function HandleVoteReply(n: Node, peer: NodeId, r: VoteReply): (Node, seq<Write>) {
    if r.term > n.term then (NewerTerm(n, r.term), [])
    else if n.role != Candidate || !r.granted then (n, [])
    else CheckVotes(n.(votes := n.votes + {peer}))
  }

  // ---- following ------------------------------------------------------------------

  /** One entry of a request against the log: skipped below the snapshot, appended past the end,
      and on a disagreement put in place of the whole suffix it disagrees with. */
  function MergeOne(n: Node, e: Entry): (Node, seq<Write>) {
    if e.index <= n.base then (n, [])
    else match EntryAt(n, e.index)
      case None => (n.(log := n.log + [e]), [PutEntry(e)])
      case Some(existing) =>
        if existing.term == e.term then (n, [])
        else
          var cut := n.(log := n.log[..e.index - n.base - 1]);
          var commit := Min(n.commit, LastIndex(cut));
          (cut.(log := cut.log + [e], commit := commit, applied := Min(n.applied, commit)),
           [Truncate(e.index), PutEntry(e)])
  }

  function Merge(n: Node, entries: Log): (Node, seq<Write>)
    decreases |entries|
  {
    if entries == [] then (n, [])
    else
      var (n1, ws1) := MergeOne(n, entries[0]);
      var (n2, ws2) := Merge(n1, entries[1..]);
      (n2, ws1 + ws2)
  }

  /** The entry before the request's first is not the one this node holds there. */
  predicate PrevMismatch(n: Node, r: AppendRequest) {
    match EntryAt(n, r.prevIndex)
    case None => r.prevIndex == n.base && r.prevTerm != n.baseTerm
    case Some(e) => e.term != r.prevTerm
  }

  function Concede(n: Node): Node {
    if n.role != Follower then n.(role := Follower, votes := {}) else n
  }

  function AdvanceCommit(n: Node, leaderCommit: nat): (Node, seq<Write>) {
    if leaderCommit <= n.commit then (n, [])
    else
      var c := Min(leaderCommit, LastIndex(n));
      var (n', ws) := ApplyCommitted(n.(commit := c));
      (n', [SaveCommit(c)] + ws)
  }

  function HandleAppendRequest(n: Node, r: AppendRequest): (Node, seq<Write>, AppendReply) {
    var n1 := NewerTerm(n, r.term);
    var meta := if r.term > n.term then [SaveMeta(n1.term, n1.votedFor)] else [];
    if r.term < n1.term then (n1, meta, AppendReply(n1.term, false, 0))
    else
      var n2 := Concede(n1);
      if r.prevIndex > LastIndex(n2) || PrevMismatch(n2, r) then
        (n2, meta, AppendReply(n2.term, false, 0))
      else
        var (n3, merged) := Merge(n2, r.entries);
        var (n4, committed) := AdvanceCommit(n3, r.commit);
        (n4, merged + meta + committed, AppendReply(n3.term, true, LastIndex(n3)))
  }

  /** A reply to an append; the term it was asked in is not looked at. */
  function HandleAppendReply(n: Node, peer: NodeId, r: AppendReply): (Node, seq<Write>) {
    if r.term > n.term then (n.(term := r.term, role := Follower, votedFor := None), [])
    else if n.role != Leader then (n, [])
    else if r.success then
      UpdateCommit(n.(next := n.next[peer := r.matchIndex + 1],
                      matched := n.matched[peer := r.matchIndex]))
    else
      var next: int := if peer in n.next then n.next[peer] else 1;
      (n.(next := n.next[peer := Max(1, next - 1)]), [])
  }

  // ---- reading --------------------------------------------------------------------

  predicate Acks(answer: Option<AppendReply>, t: nat) {
    answer.Some? && answer.value.success && answer.value.term == t
  }

  /** How many of the answers acknowledge this term. */
  function CountAcks(answers: seq<Option<AppendReply>>, t: nat): nat {
    if answers == [] then 0
    else CountAcks(answers[..|answers| - 1], t) + if Acks(answers[|answers| - 1], t) then 1 else 0
  }

  /** The index a read is served at, if at any: the node as the read began and once the peers, in their
      order, were asked, and what they answered. */
  function ServedIndex(began: Node, answered: Node, answers: seq<Option<AppendReply>>): Option<nat> {
    if began.role != Leader then None
    else if began.cfg.peers == [] then Some(began.commit)
    else if answered.role != Leader || answered.term != began.term then None
    else if CountAcks(answers, began.term) + 1 < Majority(GroupSize(answered)) then None
    else Some(UpdateCommit(answered).0.commit)
  }

  // ---- snapshots from the leader --------------------------------------------------

  function HandleInstallRequest(n: Node, r: InstallRequest): (Node, seq<Write>, InstallReply) {
    var n1 := NewerTerm(n, r.term);
    var meta := if r.term > n.term then [SaveMeta(n1.term, n1.votedFor)] else [];
    if r.term < n1.term then (n1, meta, InstallReply(n1.term, false))
    else
      var n2 := Concede(n1);
      var s := r.snapshot;
      if s.index <= n2.applied then (n2, meta, InstallReply(n2.term, true))
      else
        var commit := Max(n2.commit, s.index);
        (n2.(machine := s.data, log := Above(n2.log, s.index), base := s.index, baseTerm := s.term,
             applied := s.index, commit := commit),
         meta + [SaveSnapshot(s), Compact(s.index), SaveCommit(commit)],
         InstallReply(n2.term, true))
  }

  // ---- restarting -----------------------------------------------------------------

  /** The stored entries in index order. */
  function LoadLog(entries: map<nat, Entry>): Log
    decreases |entries.Keys|
  {
    if entries.Keys == {} then []
    else
      var k := MaxKey(entries.Keys);
      LoadLog(entries - {k}) + [entries[k]]
  }

  function Load(cfg: Config, d: Disk): (Node, seq<Write>) {
    var stored := LoadLog(d.entries);
    var n := Node(cfg, Follower, d.term, d.votedFor, stored, 0, 0, 0, 0, {}, map[], map[], []);
    var n1 := match d.snapshot
      case None => n
      case Some(s) => n.(machine := s.data, base := s.index, baseTerm := s.term, applied := s.index,
                         log := Above(stored, s.index));
    ApplyCommitted(n1.(commit := Max(Min(d.commit, LastIndex(n1)), n1.applied)))
  }
}
