/**
  The replication protocol of one group, seen through what every node of it has ever
  promised: which leader log each term has produced, which ballots were cast (and on top
  of which log), and which prefixes were acknowledged.  The group of real nodes in
  `RaftGroup` is shown to move only by the seven moves below, so what is proved here holds
  of it.
*/
module RaftProtocol {
  import opened Common

  type NodeId = nat
  type Command = Bytes

  /** A log entry; `index` is the position it was written at, counted from 1. */
  datatype Entry = Entry(term: nat, index: nat, command: Command)
  type Log = seq<Entry>

  function LastTerm(log: Log): nat {
    if log == [] then 0 else log[|log| - 1].term
  }

  /** The log-freshness comparison of a vote (section 5.4.1 of the Raft paper). */
  predicate UpToDate(lastTerm: nat, lastIndex: nat, log: Log) {
    lastTerm > LastTerm(log) || (lastTerm == LastTerm(log) && lastIndex >= |log|)
  }

  /** The first `n` entries of the two logs are there and are the same. */
  ghost predicate Agree(a: Log, b: Log, n: nat) {
    n <= |a| && n <= |b| && forall i :: 0 <= i < n ==> a[i] == b[i]
  }

  ghost predicate Monotone(log: Log) {
    forall i, j :: 0 <= i <= j < |log| ==> log[i].term <= log[j].term
  }

  /** A vote, the log it was cast on, and how many leaders there had been by then. */
  datatype Ballot = Ballot(candidate: NodeId, log: Log, when: nat)
  datatype Ack = Ack(node: NodeId, term: nat, length: nat)

  /** What a group has done so far. */
  datatype Protocol = Protocol(
    term: map<NodeId, nat>,
    log: map<NodeId, Log>,
    leaderLog: map<nat, Log>,                  // by term, the log its leader has built
    owner: map<nat, NodeId>,                   // by term, the leader
    ballots: map<(NodeId, nat), Ballot>,       // by voter and term
    acks: set<Ack>,
    order: seq<nat>)                           // the terms that have had a leader, first elected first

  // ---- the moves ------------------------------------------------------------------

  /** A node's term moves, forward on any message or back to the stored one on a restart.
      It never falls below a term the node voted in or holds an entry of. */
  ghost predicate SetTerm(s: Protocol, s': Protocol, p: NodeId, t: nat) {
    && p in s.term && p in s.log
    && LastTerm(s.log[p]) <= t
    && (forall b :: b in s.ballots && b.0 == p ==> b.1 <= t)
    && s' == s.(term := s.term[p := t])
  }

  /** A candidate votes for itself, on top of its own log, in a term nobody has its vote in. */
  ghost predicate Stand(s: Protocol, s': Protocol, p: NodeId) {
    && p in s.term && p in s.log
    && (p, s.term[p]) !in s.ballots
    && LastTerm(s.log[p]) < s.term[p]
    && s' == s.(ballots := s.ballots[(p, s.term[p]) := Ballot(p, s.log[p], |s.order|)])
  }

  /** A vote for a candidate whose log is at least as fresh as the voter's. */
  ghost predicate Grant(s: Protocol, s': Protocol, p: NodeId, c: NodeId) {
    && p in s.term && p in s.log
    && var t := s.term[p];
    && (p, t) !in s.ballots
    && (c, t) in s.ballots && s.ballots[(c, t)].candidate == c
    && var mine := s.ballots[(c, t)].log;
    && UpToDate(LastTerm(mine), |mine|, s.log[p])
    && s' == s.(ballots := s.ballots[(p, t) := Ballot(c, s.log[p], |s.order|)])
  }

  ghost predicate VotedFor(s: Protocol, q: set<NodeId>, t: nat, c: NodeId) {
    forall v :: v in q ==> (v, t) in s.ballots && s.ballots[(v, t)].candidate == c
  }

  /** A candidate holding a quorum's votes appends the entry that opens its term. */
  ghost predicate Elect(s: Protocol, s': Protocol, c: NodeId, q: set<NodeId>, e: Entry) {
    && c in s.term && c in s.log && c in q
    && Quorum(q, s.term.Keys)
    && var t := s.term[c];
    && VotedFor(s, q, t, c)
    && s.log[c] == s.ballots[(c, t)].log
    && t !in s.leaderLog
    && e.term == t
    && var begun := s.log[c] + [e];
    && s' == s.(log := s.log[c := begun],
                leaderLog := s.leaderLog[t := begun],
                owner := s.owner[t := c],
                acks := s.acks + {Ack(c, t, |begun|)},
                order := s.order + [t])
  }

  /** A leader appends one entry of its own term. */
  ghost predicate Extend(s: Protocol, s': Protocol, c: NodeId, e: Entry) {
    && c in s.term && c in s.log
    && var t := s.term[c];
    && t in s.leaderLog && t in s.owner && s.owner[t] == c
    && s.log[c] == s.leaderLog[t]
    && e.term == t
    && var longer := s.log[c] + [e];
    && s' == s.(log := s.log[c := longer],
                leaderLog := s.leaderLog[t := longer],
                acks := s.acks + {Ack(c, t, |longer|)})
  }

  /** A follower takes the leader's log of its term, keeping whatever already agreed, and
      acknowledges the whole of what it then holds. */
  ghost predicate Accept(s: Protocol, s': Protocol, p: NodeId, taken: Log) {
    && p in s.term && p in s.log
    && var t := s.term[p];
    && t in s.leaderLog
    && Agree(taken, s.leaderLog[t], |taken|)
    && taken != [] && LastTerm(taken) == t
    && (forall j: nat :: Agree(s.log[p], s.leaderLog[t], j) ==> j <= |taken|)
    && s' == s.(log := s.log[p := taken], acks := s.acks + {Ack(p, t, |taken|)})
  }

  /** `taken` is the start of the leader log of term `w`, and has all of it that `log` had. */
  ghost predicate Towards(s: Protocol, log: Log, taken: Log, w: nat) {
    && w in s.leaderLog && LastTerm(log) <= w
    && Agree(taken, s.leaderLog[w], |taken|)
    && forall j: nat :: Agree(log, s.leaderLog[w], j) ==> j <= |taken|
  }

  /** A follower dies on the way to the leader's log of some term, anywhere between cutting its own
      log and having it all, and comes back in the term that was stored; it acknowledges nothing. */
  ghost predicate Falter(s: Protocol, s': Protocol, p: NodeId, taken: Log, w: nat, t: nat) {
    && p in s.term && p in s.log
    && Towards(s, s.log[p], taken, w)
    && LastTerm(taken) <= t
    && (forall b :: b in s.ballots && b.0 == p ==> b.1 <= t)
    && s' == s.(term := s.term[p := t], log := s.log[p := taken])
  }

  // ---- the invariant --------------------------------------------------------------

  ghost predicate OrderSound(s: Protocol) {
    && (forall t :: t in s.leaderLog <==> t in s.order)
    && forall i, j :: 0 <= i < j < |s.order| ==> s.order[i] != s.order[j]
  }

  /** Entry `i` of `log` sits on exactly the prefix the leader of its term wrote it on. */
  ghost predicate SourcedAt(s: Protocol, log: Log, i: nat)
    requires i < |log|
  {
    log[i].term in s.leaderLog && Agree(log, s.leaderLog[log[i].term], i + 1)
  }

  ghost predicate Sourced(s: Protocol, log: Log) {
    && Monotone(log)
    && forall i: nat {:trigger SourcedAt(s, log, i)} :: i < |log| ==> SourcedAt(s, log, i)
  }

  ghost predicate NodesSourced(s: Protocol) {
    && s.log.Keys == s.term.Keys
    && forall p :: p in s.log ==> Sourced(s, s.log[p]) && LastTerm(s.log[p]) <= s.term[p]
  }

  ghost predicate LeadersSourced(s: Protocol) {
    && s.owner.Keys == s.leaderLog.Keys
    && forall t :: t in s.leaderLog ==>
         s.leaderLog[t] != [] && LastTerm(s.leaderLog[t]) == t && Sourced(s, s.leaderLog[t])
  }

  ghost predicate BallotsSound(s: Protocol) {
    forall b :: b in s.ballots ==>
      && b.0 in s.term && b.1 <= s.term[b.0]
      && Sourced(s, s.ballots[b].log)
      && LastTerm(s.ballots[b].log) < b.1
      && (s.ballots[b].log != [] ==> Had(s, LastTerm(s.ballots[b].log), s.ballots[b].when))
  }

  ghost predicate BallotsTimely(s: Protocol) {
    forall b :: b in s.ballots ==> s.ballots[b].when <= |s.order|
  }

  /** Term `t` had its leader among the first `k`. */
  ghost predicate Had(s: Protocol, t: nat, k: nat) {
    exists i :: 0 <= i < k && i < |s.order| && s.order[i] == t
  }

  ghost predicate ElectedBy(s: Protocol, t: nat, q: set<NodeId>)
    requires t in s.owner
  {
    && Quorum(q, s.term.Keys)
    && VotedFor(s, q, t, s.owner[t])
  }

  /** Each ballot cast for a candidate was cast on a log no fresher than the candidate's. */
  ghost predicate FreshCandidates(s: Protocol) {
    forall b :: b in s.ballots ==>
      var c := s.ballots[b].candidate;
      && (c, b.1) in s.ballots && s.ballots[(c, b.1)].candidate == c
      && var mine := s.ballots[(c, b.1)].log;
         UpToDate(LastTerm(mine), |mine|, s.ballots[b].log)
  }

  /** The `r`-th leader to be elected was that of term `t`, by votes that were all cast before. */
  ghost predicate ElectedAt(s: Protocol, t: nat, q: set<NodeId>, r: nat)
    requires t in s.owner
  {
    && ElectedBy(s, t, q)
    && r < |s.order| && s.order[r] == t
    && (forall v :: v in q ==> s.ballots[(v, t)].when <= r)
    && (s.owner[t], t) in s.ballots && s.ballots[(s.owner[t], t)].when <= r
  }

  ghost predicate LeaderElected(s: Protocol, t: nat)
    requires t in s.leaderLog && t in s.owner
  {
    && (exists q, r: nat :: ElectedAt(s, t, q, r))
    && (s.owner[t], t) in s.ballots
    && var mine := s.ballots[(s.owner[t], t)].log;
    && |mine| < |s.leaderLog[t]| && Agree(mine, s.leaderLog[t], |mine|)
  }

  ghost predicate LeadersElected(s: Protocol) {
    && s.owner.Keys == s.leaderLog.Keys
    && forall t :: t in s.leaderLog ==> LeaderElected(s, t)
  }

  /** The leader log of the later term `u` lacks the first `m` entries of that of term `t`. */
  ghost predicate Lacks(s: Protocol, u: nat, t: nat, m: nat)
    requires t in s.leaderLog
  {
    t < u && u in s.leaderLog && !Agree(s.leaderLog[t], s.leaderLog[u], m)
  }

  /** One of the first `k` leaders lacks them: losing them was that leader's doing. */
  ghost predicate Dropped(s: Protocol, t: nat, m: nat, k: nat)
    requires t in s.leaderLog
  {
    exists i :: 0 <= i < k && i < |s.order| && Lacks(s, s.order[i], t, m)
  }

  ghost predicate AckSound(s: Protocol, a: Ack) {
    && a.node in s.log
    && a.term in s.leaderLog
    && 1 <= a.length <= |s.leaderLog[a.term]|
    && s.leaderLog[a.term][a.length - 1].term == a.term
  }

  /** `p` still holds the first `m` entries of the leader log of term `t`, or some later term's
      leader took them away; and the same of the log under every later ballot it cast, where that
      leader was elected before the ballot. */
  ghost predicate Kept(s: Protocol, p: NodeId, t: nat, m: nat)
    requires p in s.log && t in s.leaderLog
  {
    && (Agree(s.leaderLog[t], s.log[p], m) || Dropped(s, t, m, |s.order|))
    && forall u :: (p, u) in s.ballots && t < u ==>
         Agree(s.leaderLog[t], s.ballots[(p, u)].log, m) || Dropped(s, t, m, s.ballots[(p, u)].when)
  }

  /** An acknowledgement promises every prefix up to it that ends in the term's own entries. */
  ghost predicate AckKept(s: Protocol, a: Ack)
    requires AckSound(s, a)
  {
    forall m: nat {:trigger Kept(s, a.node, a.term, m)} ::
      1 <= m <= a.length && s.leaderLog[a.term][m - 1].term == a.term ==> Kept(s, a.node, a.term, m)
  }

  ghost predicate AcksSound(s: Protocol) {
    forall a :: a in s.acks ==> AckSound(s, a) && AckKept(s, a)
  }

  ghost predicate Inv(s: Protocol) {
    && NodesSourced(s)
    && LeadersSourced(s)
    && BallotsSound(s)
    && FreshCandidates(s)
    && LeadersElected(s)
    && AcksSound(s)
    && OrderSound(s) && BallotsTimely(s)
  }

  // ---- what the invariant gives ---------------------------------------------------

  ghost predicate AckedBy(s: Protocol, q: set<NodeId>, t: nat, m: nat) {
    forall v :: v in q ==> exists a :: a in s.acks && a.node == v && a.term == t && a.length >= m
  }

  /** Index `m` of the leader log of term `t` is committed: a quorum acknowledged it and it
      carries an entry of that term. */
  ghost predicate Committed(s: Protocol, t: nat, m: nat) {
    && t in s.leaderLog
    && 1 <= m <= |s.leaderLog[t]|
    && s.leaderLog[t][m - 1].term == t
    && exists q :: Quorum(q, s.term.Keys) && AckedBy(s, q, t, m)
  }

  /** Log matching: two sourced logs that agree on the term of one entry agree up to it. */
  lemma LogMatching(s: Protocol, a: Log, b: Log, i: nat)
    requires Sourced(s, a) && Sourced(s, b)
    requires i < |a| && i < |b| && a[i].term == b[i].term
    ensures Agree(a, b, i + 1)
  {
    assert SourcedAt(s, a, i) && SourcedAt(s, b, i);
  }

  /** Someone who acknowledged a committed index voted in every later election, and in time. */
  lemma AckedVoter(s: Protocol, t: nat, m: nat, r: nat) returns (v: NodeId)
    requires AcksSound(s) && LeadersElected(s) && OrderSound(s) && Committed(s, t, m) && r < |s.order|
    ensures v in s.log && Kept(s, v, t, m)
    ensures var u := s.order[r];
            && u in s.owner && (v, u) in s.ballots && s.ballots[(v, u)].candidate == s.owner[u]
            && s.ballots[(v, u)].when <= r
            && (s.owner[u], u) in s.ballots && s.ballots[(s.owner[u], u)].when <= r
  {
    var u := s.order[r];
    var acked :| Quorum(acked, s.term.Keys) && AckedBy(s, acked, t, m);
    assert LeaderElected(s, u);
    var voted, r' :| ElectedAt(s, u, voted, r');
    v := QuorumsMeet(acked, voted, s.term.Keys);
    var a :| a in s.acks && a.node == v && a.term == t && a.length >= m;
    assert AckSound(s, a) && AckKept(s, a);
    assert Kept(s, a.node, a.term, m);
  }

  /** Leader completeness, one leader after another in the order of their elections. */
  lemma {:induction false} CompleteAt(s: Protocol, t: nat, m: nat, r: nat)
    requires Inv(s) && Committed(s, t, m)
    requires r < |s.order| && t < s.order[r]
    ensures s.order[r] in s.leaderLog && Agree(s.leaderLog[t], s.leaderLog[s.order[r]], m)
    decreases r
  {
    hide Sourced, LastTerm, UpToDate, LeaderElected, AckSound, AckKept, AckedBy, Dropped, Had, NodesSourced, Quorum;
    var u := s.order[r];
    var v := AckedVoter(s, t, m, r);
    forall i | 0 <= i < r ensures !Lacks(s, s.order[i], t, m) {
      if t < s.order[i] { CompleteAt(s, t, m, i); }
    }
    VoteHeld(s, v, t, m, r);
  }

  /** What a voter in time held, its candidate held, and so does the leader it became. */
  lemma VoteHeld(s: Protocol, v: NodeId, t: nat, m: nat, r: nat)
    requires LeadersSourced(s) && LeadersElected(s) && BallotsSound(s) && FreshCandidates(s) && OrderSound(s)
    requires r < |s.order| && t < s.order[r] && Committed(s, t, m) && v in s.log && Kept(s, v, t, m)
    requires var u := s.order[r];
             && u in s.owner && (v, u) in s.ballots && s.ballots[(v, u)].candidate == s.owner[u]
             && s.ballots[(v, u)].when <= r
             && (s.owner[u], u) in s.ballots && s.ballots[(s.owner[u], u)].when <= r
    requires forall i :: 0 <= i < r ==> !Lacks(s, s.order[i], t, m)
    ensures Agree(s.leaderLog[t], s.leaderLog[s.order[r]], m)
  {
    hide Sourced, AckedBy, Quorum, Dropped, Had, ElectedAt, UpToDate;
    var u := s.order[r];
    var theirs, mine := s.ballots[(v, u)].log, s.ballots[(s.owner[u], u)].log;
    NotDropped(s, t, m, r, s.ballots[(v, u)].when);
    assert LeaderElected(s, u);
    if mine != [] {
      HadHolds(s, t, m, r, LastTerm(mine), s.ballots[(s.owner[u], u)].when);
    }
    CandidateContains(s, t, m, theirs, mine);
  }

  lemma HadHolds(s: Protocol, t: nat, m: nat, r: nat, w: nat, k: nat)
    requires t in s.leaderLog && k <= r && Had(s, w, k)
    requires forall i :: 0 <= i < r && i < |s.order| ==> !Lacks(s, s.order[i], t, m)
    ensures !Lacks(s, w, t, m)
  {
  }

  lemma NotDropped(s: Protocol, t: nat, m: nat, r: nat, k: nat)
    requires t in s.leaderLog && k <= r <= |s.order| && forall i :: 0 <= i < r ==> !Lacks(s, s.order[i], t, m)
    ensures !Dropped(s, t, m, k)
  {
  }

  /** Leader completeness: what was committed in a term is in every later leader's log. */
  lemma LeaderCompleteness(s: Protocol, t: nat, m: nat, u: nat)
    requires Inv(s) && Committed(s, t, m)
    requires t < u && u in s.leaderLog
    ensures Agree(s.leaderLog[t], s.leaderLog[u], m)
  {
    var r := RankOf(s, u);
    CompleteAt(s, t, m, r);
  }

  lemma RankOf(s: Protocol, u: nat) returns (r: nat)
    requires OrderSound(s) && u in s.leaderLog
    ensures r < |s.order| && s.order[r] == u
  {
    r :| 0 <= r < |s.order| && s.order[r] == u;
  }

  /** A candidate as fresh as a voter that holds the prefix holds it as well, if the leader of its
      newest entry does. */
  lemma CandidateContains(s: Protocol, t: nat, m: nat, theirs: Log, mine: Log)
    requires LeadersSourced(s)
    requires t in s.leaderLog && 1 <= m <= |s.leaderLog[t]| && s.leaderLog[t][m - 1].term == t
    requires Sourced(s, theirs) && Sourced(s, mine)
    requires UpToDate(LastTerm(mine), |mine|, theirs)
    requires Agree(s.leaderLog[t], theirs, m)
    requires mine != [] ==> !Lacks(s, LastTerm(mine), t, m)
    ensures Agree(s.leaderLog[t], mine, m)
  {
    assert theirs[m - 1].term == t;
    var w := LastTerm(mine);
    assert w >= LastTerm(theirs) >= t;
    var last := |mine| - 1;
    assert SourcedAt(s, mine, last);
  }

  /** Any two committed prefixes agree wherever both reach. */
  lemma CommittedAgree(s: Protocol, t: nat, m: nat, t': nat, m': nat)
    requires Inv(s) && Committed(s, t, m) && Committed(s, t', m')
    requires t <= t'
    ensures Agree(s.leaderLog[t], s.leaderLog[t'], Min(m, m'))
  {
    if t < t' {
      LeaderCompleteness(s, t, m, t');
    }
  }

  ghost predicate CommitVia(s: Protocol, log: Log, c: nat, bound: nat, t: nat, m: nat) {
    Committed(s, t, m) && t <= bound && 0 < c <= m && Agree(log, s.leaderLog[t], c) && log[c - 1].term == t
  }

  /** The first `c` entries of `log` are a prefix committed in a term no later than `bound`, which is
      the term of the last of them: a commit index is only ever moved to an entry of the term that
      commits it. */
  ghost predicate CommitSound(s: Protocol, log: Log, c: nat, bound: nat) {
    c == 0 || exists t: nat, m: nat :: CommitVia(s, log, c, bound, t, m)
  }

  /** Two logs' committed parts agree wherever both reach. */
  lemma CommitsAgree(s: Protocol, a: Log, c: nat, bound: nat, b: Log, c': nat, bound': nat)
    requires Inv(s) && CommitSound(s, a, c, bound) && CommitSound(s, b, c', bound')
    requires c <= |a| && c' <= |b|
    ensures Agree(a, b, Min(c, c'))
  {
    hide Inv;
    if c > 0 && c' > 0 {
      var t: nat, m: nat :| CommitVia(s, a, c, bound, t, m);
      var t': nat, m': nat :| CommitVia(s, b, c', bound', t', m');
      if t <= t' {
        CommittedAgree(s, t, m, t', m');
      } else {
        CommittedAgree(s, t', m', t, m);
      }
    }
  }

  // ---- every move keeps the invariant ---------------------------------------------

  ghost predicate Extends(a: seq<nat>, b: seq<nat>) {
    |a| <= |b| && forall i :: 0 <= i < |a| ==> b[i] == a[i]
  }

  /** Leader logs only grow, and only by entries of their own term. */
  ghost predicate Grown(s: Protocol, s': Protocol) {
    && s.term.Keys == s'.term.Keys
    && s.leaderLog.Keys <= s'.leaderLog.Keys
    && s.owner.Keys <= s'.owner.Keys
    && s.ballots.Keys <= s'.ballots.Keys
    && s.acks <= s'.acks
    && Extends(s.order, s'.order)
    && (forall t :: t in s.leaderLog ==> Agree(s.leaderLog[t], s'.leaderLog[t], |s.leaderLog[t]|))
    && (forall t :: t in s.owner ==> s'.owner[t] == s.owner[t])
    && (forall b :: b in s.ballots ==> s'.ballots[b] == s.ballots[b])
  }

  lemma SourcedGrows(s: Protocol, s': Protocol, log: Log)
    requires Sourced(s, log) && Grown(s, s')
    ensures Sourced(s', log)
  {
    forall i: nat | i < |log| ensures SourcedAt(s', log, i) {
      assert SourcedAt(s, log, i);
    }
  }

  lemma LacksGrows(s: Protocol, s': Protocol, u: nat, t: nat, m: nat)
    requires LeadersSourced(s) && LeadersSourced(s') && Grown(s, s')
    requires t in s.leaderLog && 1 <= m <= |s.leaderLog[t]| && s.leaderLog[t][m - 1].term == t
    requires Lacks(s, u, t, m)
    ensures Lacks(s', u, t, m)
  {
    var last := |s.leaderLog[u]| - 1;
    assert s'.leaderLog[u][last].term == u;
    if Agree(s'.leaderLog[t], s'.leaderLog[u], m) {
      assert false;
    }
  }

  lemma DroppedGrows(s: Protocol, s': Protocol, t: nat, m: nat, k: nat, k': nat)
    requires LeadersSourced(s) && LeadersSourced(s') && Grown(s, s')
    requires t in s.leaderLog && 1 <= m <= |s.leaderLog[t]| && s.leaderLog[t][m - 1].term == t
    requires k <= k' && Dropped(s, t, m, k)
    ensures Dropped(s', t, m, k')
  {
    hide Lacks;
    var i :| 0 <= i < k && i < |s.order| && Lacks(s, s.order[i], t, m);
    LacksGrows(s, s', s.order[i], t, m);
    assert Lacks(s', s'.order[i], t, m);
  }

  lemma HadGrows(s: Protocol, s': Protocol, t: nat, k: nat)
    requires Grown(s, s') && Had(s, t, k)
    ensures Had(s', t, k)
  {
    var i :| 0 <= i < k && i < |s.order| && s.order[i] == t;
    assert s'.order[i] == t;
  }

  /** Whoever's newest entry it is has been a leader. */
  lemma SourceHad(s: Protocol, log: Log)
    requires OrderSound(s) && Sourced(s, log) && log != []
    ensures Had(s, LastTerm(log), |s.order|)
  {
    assert SourcedAt(s, log, |log| - 1);
    var r := RankOf(s, LastTerm(log));
  }

  // One lemma per part of the invariant: what a move has to say about the one node, term,
  // ballot or acknowledgement it touched for that part to hold afterwards.

  lemma NodesKept(s: Protocol, s': Protocol, p: NodeId)
    requires NodesSourced(s) && Grown(s, s')
    requires p in s.log && s'.log.Keys == s.log.Keys
    requires forall q :: q in s.log && q != p ==> s'.log[q] == s.log[q] && s'.term[q] == s.term[q]
    requires Sourced(s', s'.log[p]) && LastTerm(s'.log[p]) <= s'.term[p]
    ensures NodesSourced(s')
  {
    forall q | q in s'.log ensures Sourced(s', s'.log[q]) && LastTerm(s'.log[q]) <= s'.term[q] {
      if q != p {
        SourcedGrows(s, s', s.log[q]);
      }
    }
  }

  lemma LeadersKept(s: Protocol, s': Protocol, t: nat)
    requires LeadersSourced(s) && Grown(s, s')
    requires s'.owner.Keys == s'.leaderLog.Keys
    requires forall u :: u in s'.leaderLog && u != t ==> u in s.leaderLog && s'.leaderLog[u] == s.leaderLog[u]
    requires t in s'.leaderLog ==>
               s'.leaderLog[t] != [] && LastTerm(s'.leaderLog[t]) == t && Sourced(s', s'.leaderLog[t])
    ensures LeadersSourced(s')
  {
    forall u | u in s'.leaderLog && u != t ensures Sourced(s', s'.leaderLog[u]) {
      SourcedGrows(s, s', s.leaderLog[u]);
    }
  }

  lemma BallotsKept(s: Protocol, s': Protocol, b0: (NodeId, nat))
    requires BallotsSound(s) && Grown(s, s')
    requires forall b :: b in s'.ballots ==> b in s.ballots || b == b0
    requires forall b :: b in s.ballots ==> b.1 <= s'.term[b.0]
    requires b0 in s'.ballots && b0 !in s.ballots ==>
               && b0.0 in s'.term && b0.1 <= s'.term[b0.0]
               && Sourced(s', s'.ballots[b0].log) && LastTerm(s'.ballots[b0].log) < b0.1
               && (s'.ballots[b0].log != [] ==> Had(s', LastTerm(s'.ballots[b0].log), s'.ballots[b0].when))
    ensures BallotsSound(s')
  {
    hide Had;
    forall b | b in s.ballots
      ensures Sourced(s', s'.ballots[b].log)
      ensures s'.ballots[b].log != [] ==> Had(s', LastTerm(s'.ballots[b].log), s'.ballots[b].when)
    {
      SourcedGrows(s, s', s.ballots[b].log);
      if s.ballots[b].log != [] { HadGrows(s, s', LastTerm(s.ballots[b].log), s.ballots[b].when); }
    }
  }

  lemma ElectedGrows(s: Protocol, s': Protocol, t: nat)
    requires t in s.leaderLog && t in s.owner && LeaderElected(s, t) && Grown(s, s')
    ensures LeaderElected(s', t)
  {
    var q, r :| ElectedAt(s, t, q, r);
    assert ElectedBy(s', t, q);
    assert ElectedAt(s', t, q, r);
  }

  lemma ElectedKept(s: Protocol, s': Protocol, t0: nat)
    requires LeadersElected(s) && Grown(s, s')
    requires s'.owner.Keys == s'.leaderLog.Keys
    requires forall t :: t in s'.leaderLog ==> t in s.leaderLog || t == t0
    requires t0 in s'.leaderLog && t0 !in s.leaderLog ==> LeaderElected(s', t0)
    ensures LeadersElected(s')
  {
    hide LeaderElected;
    forall t | t in s.leaderLog ensures LeaderElected(s', t) {
      ElectedGrows(s, s', t);
    }
  }

  /** The promise of one old acknowledgement after a move. */
  lemma KeptGrows(s: Protocol, s': Protocol, p: NodeId, t: nat, m: nat)
    requires LeadersSourced(s) && LeadersSourced(s') && Grown(s, s')
    requires p in s.log && p in s'.log
    requires t in s.leaderLog && 1 <= m <= |s.leaderLog[t]| && s.leaderLog[t][m - 1].term == t
    requires Kept(s, p, t, m)
    requires Agree(s.leaderLog[t], s.log[p], m) ==>
               Agree(s'.leaderLog[t], s'.log[p], m) || Dropped(s', t, m, |s'.order|)
    requires forall u :: (p, u) in s'.ballots && (p, u) !in s.ballots && t < u ==>
               s'.ballots[(p, u)].log == s.log[p] && s'.ballots[(p, u)].when == |s.order|
    ensures Kept(s', p, t, m)
  {
    hide Dropped;
    if !Agree(s.leaderLog[t], s.log[p], m) {
      DroppedGrows(s, s', t, m, |s.order|, |s'.order|);
    }
    forall u | (p, u) in s'.ballots && t < u
      ensures Agree(s'.leaderLog[t], s'.ballots[(p, u)].log, m) || Dropped(s', t, m, s'.ballots[(p, u)].when)
    {
      if (p, u) in s.ballots {
        if !Agree(s.leaderLog[t], s.ballots[(p, u)].log, m) {
          DroppedGrows(s, s', t, m, s.ballots[(p, u)].when, s.ballots[(p, u)].when);
        }
      } else if !Agree(s.leaderLog[t], s.log[p], m) {
        DroppedGrows(s, s', t, m, |s.order|, |s.order|);
      }
    }
  }

  lemma AcksKept(s: Protocol, s': Protocol, a0: Ack)
    requires AcksSound(s) && LeadersSourced(s) && LeadersSourced(s') && Grown(s, s')
    requires s.log.Keys == s'.log.Keys
    requires forall a :: a in s'.acks ==> a in s.acks || a == a0
    requires forall p, t, m: nat ::
               (p in s.log && t in s.leaderLog && Agree(s.leaderLog[t], s.log[p], m)
                && 1 <= m && s.leaderLog[t][m - 1].term == t) ==>
               Agree(s'.leaderLog[t], s'.log[p], m) || Dropped(s', t, m, |s'.order|)
    requires forall p, u :: (p, u) in s'.ballots && (p, u) !in s.ballots && p in s.log ==>
               s'.ballots[(p, u)].log == s.log[p] && s'.ballots[(p, u)].when == |s.order|
    requires a0 in s'.acks && a0 !in s.acks ==> AckSound(s', a0) && AckKept(s', a0)
    ensures AcksSound(s')
  {
    hide Dropped;
    forall a | a in s'.acks && a in s.acks ensures AckSound(s', a) && AckKept(s', a) {
      assert AckSound(s, a) && AckKept(s, a);
      assert Agree(s.leaderLog[a.term], s'.leaderLog[a.term], |s.leaderLog[a.term]|);
      forall m: nat | 1 <= m <= a.length && s'.leaderLog[a.term][m - 1].term == a.term
        ensures Kept(s', a.node, a.term, m)
      {
        assert Kept(s, a.node, a.term, m);
        KeptGrows(s, s', a.node, a.term, m);
      }
    }
  }

  lemma SetTermKeepsLogs(s: Protocol, s': Protocol, p: NodeId, t: nat)
    requires SetTerm(s, s', p, t) && NodesSourced(s) && LeadersSourced(s)
    ensures Grown(s, s') && NodesSourced(s') && LeadersSourced(s')
  {
    hide SourcedAt, Monotone, LastTerm;
    assert Grown(s, s');
    hide Sourced;
    SourcedGrows(s, s', s.log[p]);
    NodesKept(s, s', p);
    if 0 in s.leaderLog { SourcedGrows(s, s', s.leaderLog[0]); }
    LeadersKept(s, s', 0);
  }

  lemma SetTermKeeps(s: Protocol, s': Protocol, p: NodeId, t: nat)
    requires Inv(s) && SetTerm(s, s', p, t)
    ensures Grown(s, s') && Inv(s')
  {
    SetTermKeepsLogs(s, s', p, t);
    BallotsKept(s, s', (p, t));
    ElectedKept(s, s', 0);
    AcksKept(s, s', Ack(p, 0, 0));
  }

  lemma FreshKept(s: Protocol, s': Protocol, p: NodeId, t: nat, c: NodeId, log: Log)
    requires FreshCandidates(s) && (p, t) !in s.ballots
    requires (p, t) in s'.ballots && s'.ballots == s.ballots[(p, t) := s'.ballots[(p, t)]]
    requires s'.ballots[(p, t)].candidate == c && s'.ballots[(p, t)].log == log
    requires (c, t) in s'.ballots && s'.ballots[(c, t)].candidate == c
    requires var mine := s'.ballots[(c, t)].log; UpToDate(LastTerm(mine), |mine|, log)
    ensures FreshCandidates(s')
  {
  }

  lemma BallotKeepsAcks(s: Protocol, s': Protocol, p: NodeId, c: NodeId)
    requires LeadersSourced(s) && LeadersSourced(s') && AcksSound(s) && Grown(s, s')
    requires p in s.log && p in s.term && LastTerm(s.log[p]) < s.term[p]
    requires s' == s.(ballots := s.ballots[(p, s.term[p]) := Ballot(c, s.log[p], |s.order|)])
    ensures AcksSound(s')
  {
    AcksKept(s, s', Ack(p, 0, 0));
  }

  /** A ballot cast by `p` in its term on its present log. */
  ghost predicate Casts(s: Protocol, s': Protocol, p: NodeId, c: NodeId) {
    && p in s.log && p in s.term && (p, s.term[p]) !in s.ballots
    && LastTerm(s.log[p]) < s.term[p]
    && s' == s.(ballots := s.ballots[(p, s.term[p]) := Ballot(c, s.log[p], |s.order|)])
  }

  lemma CastGrows(s: Protocol, s': Protocol, p: NodeId, c: NodeId)
    requires Casts(s, s', p, c)
    ensures Grown(s, s')
  {
  }

  lemma CastKeepsLogs(s: Protocol, s': Protocol, p: NodeId, c: NodeId)
    requires Casts(s, s', p, c)
    requires NodesSourced(s) && LeadersSourced(s)
    ensures NodesSourced(s') && LeadersSourced(s')
  {
    CastGrows(s, s', p, c);
    SourcedGrows(s, s', s.log[p]);
    NodesKept(s, s', p);
    LeadersKept(s, s', 0);
  }

  lemma CastKeepsBallots(s: Protocol, s': Protocol, p: NodeId, c: NodeId)
    requires Casts(s, s', p, c)
    requires BallotsSound(s) && LeadersElected(s) && Sourced(s, s.log[p]) && OrderSound(s)
    ensures BallotsSound(s') && LeadersElected(s')
  {
    hide Had;
    CastGrows(s, s', p, c);
    SourcedGrows(s, s', s.log[p]);
    if s.log[p] != [] {
      SourceHad(s, s.log[p]);
      HadGrows(s, s', LastTerm(s.log[p]), |s.order|);
    }
    BallotsKept(s, s', (p, s.term[p]));
    ElectedKept(s, s', 0);
  }

  /** A ballot cast on the voter's present log, for a candidate at least as fresh. */
  lemma CastKeeps(s: Protocol, s': Protocol, p: NodeId, c: NodeId)
    requires Inv(s) && Casts(s, s', p, c)
    requires (c, s.term[p]) in s'.ballots && s'.ballots[(c, s.term[p])].candidate == c
    requires var mine := s'.ballots[(c, s.term[p])].log;
             UpToDate(LastTerm(mine), |mine|, s.log[p])
    ensures Grown(s, s') && Inv(s')
  {
    hide Grown, Sourced, LeaderElected, AckSound, AckKept, LastTerm, UpToDate, Had;
    CastGrows(s, s', p, c);
    CastKeepsLogs(s, s', p, c);
    CastKeepsBallots(s, s', p, c);
    FreshKept(s, s', p, s.term[p], c, s.log[p]);
    BallotKeepsAcks(s, s', p, c);
  }

  lemma StandKeeps(s: Protocol, s': Protocol, p: NodeId)
    requires Inv(s) && Stand(s, s', p)
    ensures Grown(s, s') && Inv(s')
  {
    CastKeeps(s, s', p, p);
  }

  lemma GrantKeeps(s: Protocol, s': Protocol, p: NodeId, c: NodeId)
    requires Inv(s) && Grant(s, s', p, c)
    ensures Grown(s, s') && Inv(s')
  {
    assert LastTerm(s.ballots[(c, s.term[p])].log) < s.term[p];
    CastKeeps(s, s', p, c);
  }

  /** A node's log gains one entry at the end, and the leader log of that term is now it. */
  lemma AppendedSourced(s: Protocol, s': Protocol, log: Log, e: Entry)
    requires Sourced(s, log) && Grown(s, s')
    requires LastTerm(log) <= e.term && e.term in s'.leaderLog && s'.leaderLog[e.term] == log + [e]
    ensures Sourced(s', log + [e])
  {
    SourcedGrows(s, s', log);
    var longer := log + [e];
    forall i: nat | i < |longer| ensures SourcedAt(s', longer, i) {
      if i < |log| {
        assert SourcedAt(s', log, i);
      }
    }
  }

  /** A node whose whole log is the leader's may acknowledge all of it. */
  lemma OwnAck(s: Protocol, p: NodeId, t: nat)
    requires p in s.log && t in s.leaderLog && s.log[p] != []
    requires Agree(s.log[p], s.leaderLog[t], |s.log[p]|) && LastTerm(s.log[p]) == t
    requires forall u :: (p, u) in s.ballots ==> u <= t
    ensures AckSound(s, Ack(p, t, |s.log[p]|)) && AckKept(s, Ack(p, t, |s.log[p]|))
  {
    forall m: nat | 1 <= m <= |s.log[p]| ensures Kept(s, p, t, m) {
      assert Agree(s.leaderLog[t], s.log[p], m);
    }
  }

  lemma LongerKeepsAcks(s: Protocol, s': Protocol, c: NodeId, e: Entry, a0: Ack)
    requires LeadersSourced(s) && LeadersSourced(s') && AcksSound(s) && Grown(s, s')
    requires c in s.log && s'.log == s.log[c := s.log[c] + [e]] && s'.ballots == s.ballots
    requires LastTerm(s.log[c]) <= e.term
    requires e.term in s'.leaderLog && s'.leaderLog[e.term] == s'.log[c]
    requires s'.acks == s.acks + {a0} && a0 == Ack(c, e.term, |s'.log[c]|)
    requires forall u :: (c, u) in s.ballots ==> u <= e.term
    ensures AcksSound(s')
  {
    OwnAck(s', c, e.term);
    AcksKept(s, s', a0);
  }

  /** `c` appends `e`, and the leader log of the entry's term is now `c`'s log. */
  ghost predicate Leads(s: Protocol, s': Protocol, c: NodeId, e: Entry) {
    && c in s.log && c in s.term && e.term == s.term[c]
    && var longer := s.log[c] + [e];
    && s' == s.(log := s.log[c := longer],
                leaderLog := s.leaderLog[e.term := longer],
                owner := s.owner[e.term := c],
                acks := s.acks + {Ack(c, e.term, |longer|)},
                order := if e.term in s.leaderLog then s.order else s.order + [e.term])
    && (e.term in s.leaderLog ==> e.term in s.owner && s.owner[e.term] == c && s.leaderLog[e.term] == s.log[c])
  }

  lemma LeadsGrows(s: Protocol, s': Protocol, c: NodeId, e: Entry)
    requires Leads(s, s', c, e) && (e.term in s.owner ==> e.term in s.leaderLog)
    ensures Grown(s, s')
  {
    assert s'.leaderLog[e.term] == s.log[c] + [e];
    assert s.term.Keys == s'.term.Keys;
  }

  lemma LeadsKeepsLogs(s: Protocol, s': Protocol, c: NodeId, e: Entry)
    requires Leads(s, s', c, e) && Grown(s, s')
    requires NodesSourced(s) && LeadersSourced(s)
    ensures NodesSourced(s') && LeadersSourced(s')
  {
    hide SourcedAt, Monotone, Grown;
    AppendedSourced(s, s', s.log[c], e);
    assert s'.log[c] == s.log[c] + [e];
    hide Sourced;
    NodesKept(s, s', c);
    LeadersKept(s, s', e.term);
  }

  lemma LeadsKeepsAcks(s: Protocol, s': Protocol, c: NodeId, e: Entry)
    requires Leads(s, s', c, e) && Grown(s, s')
    requires LeadersSourced(s) && LeadersSourced(s') && AcksSound(s)
    requires LastTerm(s.log[c]) <= s.term[c]
    requires BallotsSound(s)
    ensures AcksSound(s')
  {
    LongerKeepsAcks(s, s', c, e, Ack(c, e.term, |s'.log[c]|));
  }

  lemma ElectElected(s: Protocol, s': Protocol, c: NodeId, q: set<NodeId>, e: Entry)
    requires Elect(s, s', c, q, e) && BallotsTimely(s)
    ensures e.term in s'.leaderLog && e.term in s'.owner && LeaderElected(s', e.term)
  {
    assert ElectedBy(s', e.term, q);
    assert s'.order[|s.order|] == e.term;
    assert ElectedAt(s', e.term, q, |s.order|);
  }

  lemma ElectLeads(s: Protocol, s': Protocol, c: NodeId, q: set<NodeId>, e: Entry)
    requires Elect(s, s', c, q, e)
    ensures Leads(s, s', c, e) && e.term !in s.leaderLog
  {
  }

  lemma LeadsKeepsBallots(s: Protocol, s': Protocol, c: NodeId, e: Entry)
    requires Leads(s, s', c, e) && Grown(s, s')
    requires BallotsSound(s) && FreshCandidates(s)
    ensures BallotsSound(s') && FreshCandidates(s')
  {
    BallotsKept(s, s', (c, e.term));
  }

  lemma LeadsKeepsOrder(s: Protocol, s': Protocol, c: NodeId, e: Entry)
    requires Leads(s, s', c, e) && OrderSound(s)
    ensures OrderSound(s')
  {
  }

  lemma LeadsKeepsElected(s: Protocol, s': Protocol, c: NodeId, e: Entry)
    requires Leads(s, s', c, e) && Grown(s, s') && LeadersElected(s)
    requires e.term in s.leaderLog || (e.term in s'.owner && LeaderElected(s', e.term))
    ensures LeadersElected(s')
  {
    hide LeaderElected;
    ElectedKept(s, s', e.term);
  }

  /** Anything a leader appends, in a term of its own, keeps the invariant. */
  lemma LeadsKeeps(s: Protocol, s': Protocol, c: NodeId, e: Entry)
    requires Inv(s) && Leads(s, s', c, e)
    requires e.term in s.leaderLog || (e.term in s'.owner && LeaderElected(s', e.term))
    ensures Grown(s, s') && Inv(s')
  {
    hide LeaderElected;
    LeadsGrows(s, s', c, e);
    LeadsKeepsLogs(s, s', c, e);
    LeadsKeepsBallots(s, s', c, e);
    LeadsKeepsElected(s, s', c, e);
    LeadsKeepsOrder(s, s', c, e);
    LeadsKeepsAcks(s, s', c, e);
  }

  lemma ElectKeeps(s: Protocol, s': Protocol, c: NodeId, q: set<NodeId>, e: Entry)
    requires Inv(s) && Elect(s, s', c, q, e)
    ensures Grown(s, s') && Inv(s')
  {
    assert BallotsTimely(s);
    hide Inv;
    ElectElected(s, s', c, q, e);
    ElectLeads(s, s', c, q, e);
    LeadsKeeps(s, s', c, e);
  }

  lemma ExtendLeads(s: Protocol, s': Protocol, c: NodeId, e: Entry)
    requires Extend(s, s', c, e)
    ensures Leads(s, s', c, e)
  {
    assert s'.owner == s.owner[e.term := c];
  }

  lemma ExtendKeeps(s: Protocol, s': Protocol, c: NodeId, e: Entry)
    requires Inv(s) && Extend(s, s', c, e)
    ensures Grown(s, s') && Inv(s')
  {
    hide Inv;
    ExtendLeads(s, s', c, e);
    LeadsKeeps(s, s', c, e);
  }

  lemma TakenSourced(s: Protocol, log: Log, taken: Log)
    requires Sourced(s, log) && Agree(taken, log, |taken|)
    ensures Sourced(s, taken)
  {
    forall i: nat | i < |taken| ensures SourcedAt(s, taken, i) {
      assert SourcedAt(s, log, i);
    }
  }

  lemma AcceptGrows(s: Protocol, s': Protocol, p: NodeId, taken: Log)
    requires Accept(s, s', p, taken)
    ensures Grown(s, s')
  {
  }

  lemma AcceptKeepsLogs(s: Protocol, s': Protocol, p: NodeId, taken: Log)
    requires Accept(s, s', p, taken) && Grown(s, s')
    requires NodesSourced(s) && LeadersSourced(s)
    ensures NodesSourced(s') && LeadersSourced(s')
  {
    LeadersKept(s, s', 0);
    TakenSourced(s', s'.leaderLog[s.term[p]], taken);
    NodesKept(s, s', p);
  }

  /** A prefix of an old leader's log survives, unless the new leader's log lacks it. */
  lemma TowardsKeepsPrefix(s: Protocol, log: Log, taken: Log, w: nat, u: nat, m: nat)
    requires Towards(s, log, taken, w) && OrderSound(s) && Monotone(log)
    requires u in s.leaderLog && Agree(s.leaderLog[u], log, m)
    requires 1 <= m && s.leaderLog[u][m - 1].term == u
    ensures Agree(s.leaderLog[u], taken, m) || Dropped(s, u, m, |s.order|)
  {
    assert log[m - 1].term == u && u <= LastTerm(log);
    if Agree(s.leaderLog[u], s.leaderLog[w], m) {
      assert Agree(log, s.leaderLog[w], m);
    } else {
      var r := RankOf(s, w);
      assert Lacks(s, s.order[r], u, m);
    }
  }

  lemma TowardsKeepsAcks(s: Protocol, s': Protocol, p: NodeId, taken: Log, w: nat, a0: Ack)
    requires LeadersSourced(s) && LeadersSourced(s') && AcksSound(s) && OrderSound(s) && Grown(s, s')
    requires p in s.log && Towards(s, s.log[p], taken, w) && Monotone(s.log[p])
    requires s' == s.(term := s'.term, log := s.log[p := taken], acks := s'.acks) && s'.acks <= s.acks + {a0}
    requires a0 in s'.acks && a0 !in s.acks ==> AckSound(s', a0) && AckKept(s', a0)
    ensures AcksSound(s')
  {
    hide Towards, AckKept, AckSound;
    forall u, m: nat
      | u in s.leaderLog && Agree(s.leaderLog[u], s.log[p], m) && 1 <= m && s.leaderLog[u][m - 1].term == u
      ensures Agree(s'.leaderLog[u], s'.log[p], m) || Dropped(s', u, m, |s'.order|)
    {
      TowardsKeepsPrefix(s, s.log[p], taken, w, u, m);
      assert forall i :: 0 <= i < |s.order| && Lacks(s, s.order[i], u, m) ==> Lacks(s', s'.order[i], u, m);
    }
    AcksKept(s, s', a0);
  }

  lemma AcceptKeepsAcks(s: Protocol, s': Protocol, p: NodeId, taken: Log)
    requires LeadersSourced(s) && LeadersSourced(s') && AcksSound(s) && OrderSound(s) && Grown(s, s')
    requires Accept(s, s', p, taken)
    requires Monotone(s.log[p]) && LastTerm(s.log[p]) <= s.term[p]
    requires forall u :: (p, u) in s.ballots ==> u <= s.term[p]
    ensures AcksSound(s')
  {
    OwnAck(s', p, s.term[p]);
    TowardsKeepsAcks(s, s', p, taken, s.term[p], Ack(p, s.term[p], |taken|));
  }

  lemma AcceptKeeps(s: Protocol, s': Protocol, p: NodeId, taken: Log)
    requires Inv(s) && Accept(s, s', p, taken)
    ensures Grown(s, s') && Inv(s')
  {
    AcceptGrows(s, s', p, taken);
    AcceptKeepsLogs(s, s', p, taken);
    BallotsKept(s, s', (p, s.term[p]));
    ElectedKept(s, s', 0);
    AcceptKeepsAcks(s, s', p, taken);
  }

  lemma FalterKeepsLogs(s: Protocol, s': Protocol, p: NodeId, taken: Log, w: nat, t: nat)
    requires Falter(s, s', p, taken, w, t) && Grown(s, s')
    requires NodesSourced(s) && LeadersSourced(s)
    ensures NodesSourced(s') && LeadersSourced(s')
  {
    LeadersKept(s, s', 0);
    TakenSourced(s', s'.leaderLog[w], taken);
    NodesKept(s, s', p);
  }

  lemma FalterGrows(s: Protocol, s': Protocol, p: NodeId, taken: Log, w: nat, t: nat)
    requires Falter(s, s', p, taken, w, t)
    ensures Grown(s, s')
  {
  }

  lemma LogMonotone(s: Protocol, p: NodeId)
    requires NodesSourced(s) && p in s.log
    ensures Monotone(s.log[p])
  {
  }

  lemma FalterKeeps(s: Protocol, s': Protocol, p: NodeId, taken: Log, w: nat, t: nat)
    requires Inv(s) && Falter(s, s', p, taken, w, t)
    ensures Grown(s, s') && Inv(s')
  {
    hide Had, Dropped, Towards, Grown, LeaderElected, AckSound, AckKept, LastTerm, SourcedAt, UpToDate, Sourced;
    LogMonotone(s, p);
    FalterGrows(s, s', p, taken, w, t);
    FalterKeepsLogs(s, s', p, taken, w, t);
    BallotsKept(s, s', (p, t));
    ElectedKept(s, s', 0);
    TowardsKeepsAcks(s, s', p, taken, w, Ack(p, 0, 0));
  }
}
