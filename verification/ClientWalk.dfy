/**
  A client's walk from one refusal to the next: the address the shard named, then the shard's
  other replicas, then the table again, a bounded number of times.
*/
module ClientWalk {
  import opened Common

  type Address = string

  /** What the table says of one shard, and which addresses a client can be opened for; both stay
      what they are between two reads of the table. */
  datatype Placement = Placement(leader: Option<Address>, replicas: seq<Address>, reachable: set<Address>)

  datatype Reply =
    | Answered(value: nat)
    | Refused(hint: Option<Address>)          // in a result
    | RefusedScan(hint: Option<Address>)      // raised, for a range read
    | Failed                                  // raised, and none of the walk's business
    | Silent

  datatype Outcome = Result(value: nat) | Refusal | ScanRefusal | Failure | Silence | NoLeader

  function HintOf(r: Reply): Option<Address> {
    if r.Refused? || r.RefusedScan? then r.hint else None
  }

  datatype Via = Direct | FromQueue

  /** One question: in which round, to whom, and where the address came from. */
  datatype Ask = Ask(round: nat, address: Address, via: Via)

  ghost predicate Distinct(s: seq<Address>) {
    forall i, j :: 0 <= i < j < |s| ==> s[i] != s[j]
  }

  function Members(s: seq<Address>): set<Address> { set a | a in s }

  /** The addresses of `from` that are reachable, and neither asked nor queued yet, each once. */
  function Waiting(replicas: seq<Address>, reachable: set<Address>, asked: set<Address>,
                   queue: seq<Address>): seq<Address> {
    if replicas == [] then []
    else
      var front := Waiting(replicas[..|replicas| - 1], reachable, asked, queue);
      var a := replicas[|replicas| - 1];
      if a in reachable && a !in asked && a !in queue then front + [a] else front
  }

  lemma {:induction false} WaitingFrom(replicas: seq<Address>, reachable: set<Address>, asked: set<Address>,
                                       queue: seq<Address>)
    requires Distinct(replicas)
    ensures var w := Waiting(replicas, reachable, asked, queue);
            Distinct(w) && forall a :: a in w ==> a in replicas && a in reachable && a !in asked && a !in queue
  {
    if replicas != [] {
      var n := |replicas| - 1;
      WaitingFrom(replicas[..n], reachable, asked, queue);
      forall a | a in replicas[..n] ensures a != replicas[n] {
      }
    }
  }

  /** Nobody who could still be asked is left out. */
  lemma {:induction false} WaitingAll(replicas: seq<Address>, reachable: set<Address>, asked: set<Address>,
                                      queue: seq<Address>)
    ensures forall a :: a in replicas && a in reachable && a !in asked && a !in queue ==>
              a in Waiting(replicas, reachable, asked, queue)
  {
    if replicas != [] { WaitingAll(replicas[..|replicas| - 1], reachable, asked, queue); }
  }

  /** How many queued addresses have their turn, up to the first a client can be opened for. */
  function Turns(queue: seq<Address>, reachable: set<Address>): (n: nat)
    ensures n <= |queue|
  {
    if queue == [] then 0 else if queue[0] in reachable then 1 else 1 + Turns(queue[1..], reachable)
  }

  /** Where the next question goes, with what the client held before and holds after. */
  ghost predicate HandedOut(p: Placement, hint: Option<Address>, queued: seq<Address>, asked: set<Address>,
                            address: Option<Address>, via: Via, queued': seq<Address>, asked': set<Address>) {
    if hint.Some? && hint.value in p.reachable then
      address == hint && via == Direct && queued' == queued && asked' == asked + {hint.value}
    else
      var n := Turns(queued, p.reachable);
      && queued' == queued[n..]
      && if n > 0 && queued[n - 1] in p.reachable then
           address == Some(queued[n - 1]) && via == FromQueue && asked' == asked + Members(queued[..n])
         else
           && address == p.leader && via == Direct && queued' == []
           && asked' == asked + Members(queued) + (if p.leader.Some? then {p.leader.value} else {})
  }

  class ShardLeaders {
    var hint: Option<Address>
    var queued: seq<Address>
    var asked: set<Address>

    constructor ()
      ensures hint == None && queued == [] && asked == {}
    {
      hint, queued, asked := None, [], {};
    }

    /** The next client to ask: the hint, once; the queue, in order; then whoever the table names. */
    method LeaderForShard(p: Placement) returns (address: Option<Address>, via: Via)
      modifies this
      ensures hint == None && HandedOut(p, old(hint), old(queued), old(asked), address, via, queued, asked)
    {
      var named := hint;
      hint := None;
      if named.Some? && named.value in p.reachable {
        address, via := named, Direct;
        asked := asked + {named.value};
        return;
      }
      ghost var n := 0;
      while queued != []
        invariant hint == None && n <= |old(queued)| && queued == old(queued)[n..]
        invariant asked == old(asked) + Members(old(queued)[..n])
        invariant Turns(old(queued), p.reachable) == n + Turns(queued, p.reachable)
        invariant forall i :: 0 <= i < n ==> old(queued)[i] !in p.reachable
        decreases |queued|
      {
        var next := queued[0];
        queued := queued[1..];
        asked := asked + {next};
        assert old(queued)[..n + 1] == old(queued)[..n] + [next];
        n := n + 1;
        if next in p.reachable {
          address, via := Some(next), FromQueue;
          return;
        }
      }
      assert old(queued)[..n] == old(queued);
      address, via := p.leader, Direct;
      if p.leader.Some? {
        asked := asked + {p.leader.value};
      }
    }

    /** Whether the refusal leaves somewhere to ask before the table. */
    method RefusedWith(p: Placement, named: Option<Address>) returns (more: bool)
      modifies this
      ensures asked == old(asked)
      ensures if named.Some? && named.value !in asked && named.value in p.reachable then
                more && hint == named && queued == old(queued)
              else
                && hint == old(hint) && queued == old(queued) + Waiting(p.replicas, p.reachable, asked, old(queued))
                && more == (queued != [])
    {
      if named.Some? && named.value !in asked && named.value in p.reachable {
        hint := named;
        return true;
      }
      queued := queued + Waiting(p.replicas, p.reachable, asked, queued);
      more := queued != [];
    }

    /** Everything held about the shard goes. */
    method Forget()
      modifies this
      ensures hint == None && queued == [] && asked == {}
    {
      hint, queued, asked := None, [], {};
    }
  }

  // ---- why it ends ----------------------------------------------------------------

  /** What is left to do in a round: an address not met yet counts three, one waiting in the queue
      two, one waiting though it has been asked one. */
  function Weight(all: set<Address>, asked: set<Address>, queued: set<Address>): nat {
    3 * |all - asked - queued| + 2 * |queued - asked| + |queued * asked|
  }

  lemma AskedFresh(all: set<Address>, asked: set<Address>, queued: set<Address>, a: Address)
    requires a in all && a !in asked && queued <= all
    ensures Weight(all, asked + {a}, queued) < Weight(all, asked, queued)
  {
    if a in queued {
      assert queued - asked == (queued - (asked + {a})) + {a};
      assert queued * (asked + {a}) == queued * asked + {a};
      assert all - (asked + {a}) - queued == all - asked - queued;
    } else {
      assert all - asked - queued == (all - (asked + {a}) - queued) + {a};
      assert queued - (asked + {a}) == queued - asked;
      assert queued * (asked + {a}) == queued * asked;
    }
  }

  lemma Popped(all: set<Address>, asked: set<Address>, queued: set<Address>, a: Address)
    requires a in queued && queued <= all
    ensures Weight(all, asked + {a}, queued - {a}) < Weight(all, asked, queued)
  {
    assert all - (asked + {a}) - (queued - {a}) == all - asked - queued;
    if a in asked {
      assert queued - asked == (queued - {a}) - (asked + {a});
      assert queued * asked == ((queued - {a}) * (asked + {a})) + {a};
    } else {
      assert queued - asked == ((queued - {a}) - (asked + {a})) + {a};
      assert queued * asked == (queued - {a}) * (asked + {a});
    }
  }

  lemma Queued(all: set<Address>, asked: set<Address>, queued: set<Address>, more: set<Address>)
    requires more <= all && more !! asked && more !! queued && queued <= all
    ensures Weight(all, asked, queued + more) <= Weight(all, asked, queued)
  {
    assert all - asked - queued == (all - asked - (queued + more)) + more;
    assert (queued + more) - asked == (queued - asked) + more;
    assert (queued + more) * asked == queued * asked;
  }

  // ---- the walk -------------------------------------------------------------------

  /** Every address there is, in the tables and in the answers, is one of `all`. */
  ghost predicate Within(all: set<Address>, p: Placement) {
    Distinct(p.replicas) && Members(p.replicas) <= all && (p.leader.Some? ==> p.leader.value in all)
  }

  ghost predicate InRounds(log: seq<Ask>, round: nat) {
    forall i :: 0 <= i < |log| ==> log[i].round <= round
  }

  /** No address is asked twice, in one round, for the same reason. */
  ghost predicate OnceEach(log: seq<Ask>) {
    forall i, j :: 0 <= i < j < |log| ==> log[i] != log[j]
  }

  /** What a round has asked so far, and what it has waiting. */
  ghost predicate RoundSound(log: seq<Ask>, round: nat, hint: Option<Address>, queued: seq<Address>,
                             asked: set<Address>,
                             begun: bool) {
    && OnceEach(log) && InRounds(log, round)
    && (begun ==> forall i :: 0 <= i < |log| && log[i].round == round ==> log[i].address in asked)
    && (!begun ==> forall i :: 0 <= i < |log| ==> log[i].round < round)
    && (forall i :: 0 <= i < |log| && log[i].round == round && log[i].via == FromQueue ==> log[i].address !in queued)
    && (begun && hint.Some? ==> hint.value !in asked)
  }

  lemma AskKeeps(log: seq<Ask>, round: nat, hint: Option<Address>, queued: seq<Address>, asked: set<Address>,
                 begun: bool,
                 a: Address, via: Via, queued': seq<Address>)
    requires RoundSound(log, round, hint, queued, asked, begun) && Distinct(queued)
    requires via == Direct ==> queued' == queued && (!begun || a !in asked)
    requires via == FromQueue ==> queued != [] && a == queued[0] && queued' == queued[1..]
    ensures RoundSound(log + [Ask(round, a, via)], round, None, queued', asked + {a}, true)
  {
    var more := log + [Ask(round, a, via)];
    forall i | 0 <= i < |log| ensures log[i] != Ask(round, a, via) {
    }
  }

  /** No address is asked three times in one round: once from a hint or the table, once from the
      queue. */
  lemma NeverThrice(log: seq<Ask>)
    requires OnceEach(log)
    ensures forall i, j, k :: 0 <= i < j < k < |log| && log[i].round == log[j].round == log[k].round ==>
              !(log[i].address == log[j].address == log[k].address)
  {
    forall i, j, k | 0 <= i < j < k < |log| && log[i].round == log[j].round == log[k].round
      ensures !(log[i].address == log[j].address == log[k].address)
    {
      assert log[i] != log[j] && log[j] != log[k] && log[i] != log[k];
      assert log[i].via == log[j].via || log[j].via == log[k].via || log[i].via == log[k].via by {
        assert log[i].via.Direct? || log[i].via.FromQueue?;
        assert log[j].via.Direct? || log[j].via.FromQueue?;
        assert log[k].via.Direct? || log[k].via.FromQueue?;
      }
    }
  }

  /** What the client holds fits the table it holds it about. */
  ghost predicate Fits(all: set<Address>, p: Placement, hint: Option<Address>, queued: seq<Address>) {
    && Distinct(queued) && Members(queued) <= p.reachable && Members(queued) <= all
    && (hint.Some? ==> hint.value in p.reachable && hint.value in all)
  }

  lemma PoppedOne(queued: seq<Address>)
    requires Distinct(queued) && queued != []
    ensures Distinct(queued[1..]) && Members(queued[1..]) == Members(queued) - {queued[0]}
  {
    assert queued == [queued[0]] + queued[1..];
  }

  lemma QueuedMore(queued: seq<Address>, more: seq<Address>)
    requires Distinct(queued) && Distinct(more) && forall a :: a in more ==> a !in queued
    ensures Distinct(queued + more) && Members(queued + more) == Members(queued) + Members(more)
  {
    var all := queued + more;
    forall i, j | 0 <= i < j < |all| ensures all[i] != all[j] {
      if i < |queued| <= j {
        assert all[j] in more && all[i] in queued;
      }
    }
  }

  /** What a refusal adds to the queue: it still fits, and there is no more to do than before. */
  lemma QueueFits(all: set<Address>, p: Placement, queued: seq<Address>, asked: set<Address>)
    requires Within(all, p) && Fits(all, p, None, queued)
    ensures var q := queued + Waiting(p.replicas, p.reachable, asked, queued);
            Fits(all, p, None, q) && Weight(all, asked, Members(q)) <= Weight(all, asked, Members(queued))
  {
    hide Weight, Waiting;
    WaitingFrom(p.replicas, p.reachable, asked, queued);
    var w := Waiting(p.replicas, p.reachable, asked, queued);
    QueuedMore(queued, w);
    forall a | a in Members(w) ensures a in all && a !in asked && a !in Members(queued) {
      assert a in Members(p.replicas);
    }
    Queued(all, asked, Members(queued), Members(w));
  }

  lemma QueueRound(log: seq<Ask>, round: nat, queued: seq<Address>, asked: set<Address>, p: Placement)
    requires RoundSound(log, round, None, queued, asked, true) && Distinct(p.replicas)
    ensures RoundSound(log, round, None, queued + Waiting(p.replicas, p.reachable, asked, queued), asked, true)
  {
    hide Waiting;
    WaitingFrom(p.replicas, p.reachable, asked, queued);
  }

  /** Where the next question goes, and what it leaves to do. */
  lemma NextTurn(all: set<Address>, p: Placement, log: seq<Ask>, round: nat, hint: Option<Address>,
                 queued: seq<Address>,
                 asked: set<Address>, begun: bool)
    requires Fits(all, p, hint, queued) && RoundSound(log, round, hint, queued, asked, begun)
    requires begun ==> hint.Some? || queued != []
    ensures queued != [] ==> Turns(queued, p.reachable) == 1
    ensures hint.Some? && begun ==>
              && RoundSound(log + [Ask(round, hint.value, Direct)], round, None, queued, asked + {hint.value}, true)
              && Weight(all, asked + {hint.value}, Members(queued)) < Weight(all, asked, Members(queued))
    ensures hint.None? && queued != [] ==>
              && RoundSound(log + [Ask(round, queued[0], FromQueue)], round, None, queued[1..], asked + {queued[0]},
                            true)
              && Fits(all, p, None, queued[1..]) && Members(queued[..1]) == {queued[0]}
              && Weight(all, asked + {queued[0]}, Members(queued[1..])) < Weight(all, asked, Members(queued))
    ensures !begun ==> forall a :: RoundSound(log + [Ask(round, a, Direct)], round, None, queued, asked + {a}, true)
  {
    hide Weight, RoundSound;
    if queued != [] {
      assert queued[0] in Members(queued);
      assert Turns(queued, p.reachable) == 1;
      PoppedOne(queued);
      Popped(all, asked, Members(queued), queued[0]);
    }
    if hint.Some? && begun {
      HintNotAsked(log, round, hint, queued, asked);
      AskedFresh(all, asked, Members(queued), hint.value);
      AskKeeps(log, round, hint, queued, asked, begun, hint.value, Direct, queued);
    }
    if hint.None? && queued != [] {
      AskKeeps(log, round, hint, queued, asked, begun, queued[0], FromQueue, queued[1..]);
    }
    if !begun {
      forall a ensures RoundSound(log + [Ask(round, a, Direct)], round, None, queued, asked + {a}, true) {
        AskKeeps(log, round, hint, queued, asked, begun, a, Direct, queued);
      }
    }
  }

  lemma Taken(all: set<Address>, p: Placement, log: seq<Ask>, round: nat, hint: Option<Address>, queued: seq<Address>,
              asked: set<Address>, begun: bool, a: Address, via: Via, queued': seq<Address>, asked': set<Address>)
    requires Fits(all, p, hint, queued) && RoundSound(log, round, hint, queued, asked, begun)
    requires if begun then hint.Some? || queued != [] else hint == None
    requires HandedOut(p, hint, queued, asked, Some(a), via, queued', asked')
    ensures RoundSound(log + [Ask(round, a, via)], round, None, queued', asked', true) && Fits(all, p, None, queued')
    ensures begun ==> Weight(all, asked', Members(queued')) < Weight(all, asked, Members(queued))
    ensures asked' == asked + {a} && (hint.Some? ==> hint.value == a)
    ensures hint.None? && queued == [] ==> p.leader == Some(a)
  {
    hide RoundSound, Weight;
    NextTurn(all, p, log, round, hint, queued, asked, begun);
    HintReachable(all, p, hint, queued);
    if hint.None? && queued != [] { assert Members(queued[..1]) == {queued[0]}; }
    if hint.None? && queued == [] {
      assert asked' == asked + {a};
    }
  }

  lemma HintNotAsked(log: seq<Ask>, round: nat, hint: Option<Address>, queued: seq<Address>, asked: set<Address>)
    requires RoundSound(log, round, hint, queued, asked, true) && hint.Some?
    ensures hint.value !in asked
  {
  }

  lemma HintRound(log: seq<Ask>, round: nat, queued: seq<Address>, asked: set<Address>, named: Address)
    requires RoundSound(log, round, None, queued, asked, true) && named !in asked
    ensures RoundSound(log, round, Some(named), queued, asked, true)
  {
  }

  lemma LogSound(log: seq<Ask>, round: nat, hint: Option<Address>, queued: seq<Address>, asked: set<Address>,
                 begun: bool)
    requires RoundSound(log, round, hint, queued, asked, begun)
    ensures OnceEach(log) && InRounds(log, round)
  {
  }

  lemma NewRound(log: seq<Ask>, round: nat, hint: Option<Address>, queued: seq<Address>, asked: set<Address>)
    requires RoundSound(log, round, hint, queued, asked, true)
    ensures RoundSound(log, round + 1, None, [], {}, false)
  {
  }

  lemma FirstRound(queued: seq<Address>, asked: set<Address>)
    ensures RoundSound([], 0, None, queued, asked, false)
  {
  }

  ghost function LastReply(question: (nat, Address) -> Reply, log: seq<Ask>): Option<Reply> {
    if log == [] then None else Some(question(|log| - 1, log[|log| - 1].address))
  }

  /** Every question so far was refused, or not answered at all. */
  ghost predicate NoneAnswered(question: (nat, Address) -> Reply, log: seq<Ask>) {
    forall i :: 0 <= i < |log| ==> !question(i, log[i].address).Answered? && !question(i, log[i].address).Failed?
  }

  // ---- that nobody is left out ----------------------------------------------------

  ghost predicate AskedIn(log: seq<Ask>, round: nat, a: Address) {
    exists i :: 0 <= i < |log| && log[i].round == round && log[i].address == a
  }

  /** Everyone asked of is known from before or is in the log, and every reachable address that a
      refusal of this round named is asked or is the next to be. */
  ghost predicate Covers(question: (nat, Address) -> Reply, log: seq<Ask>, round: nat, p: Placement,
                         known: set<Address>, asked: set<Address>, hint: Option<Address>) {
    && (forall a :: a in asked ==> a in known || AskedIn(log, round, a))
    && forall i :: 0 <= i < |log| && log[i].round == round && HintOf(question(i, log[i].address)).Some? ==>
         var h := HintOf(question(i, log[i].address));
         h.value in p.reachable ==> h.value in asked || hint == h
  }

  /** Round `round` asked every reachable replica, and everyone reachable that a refusal in it named,
      but for those known from before; and after the first round it began with the leader the table names. */
  ghost predicate Exhausted(question: (nat, Address) -> Reply, log: seq<Ask>, round: nat, p: Placement,
                            known: set<Address>) {
    && (forall a :: a in p.replicas && a in p.reachable ==> a in known || AskedIn(log, round, a))
    && (forall i :: 0 <= i < |log| && log[i].round == round && HintOf(question(i, log[i].address)).Some? ==>
          var h := HintOf(question(i, log[i].address));
          h.value in p.reachable ==> h.value in known || AskedIn(log, round, h.value))
    && (round > 0 ==> p.leader.Some? && AskedIn(log, round, p.leader.value))
  }

  function Known(asked: set<Address>, round: nat): set<Address> { if round == 0 then asked else {} }

  ghost predicate AllExhausted(question: (nat, Address) -> Reply, log: seq<Ask>, rounds: nat, tables: nat -> Placement,
                               asked: set<Address>) {
    forall r: nat :: r < rounds ==> Exhausted(question, log, r, tables(r), Known(asked, r))
  }

  /** The walk was used up: every round asked everyone, and there is no read of the table left, or the
      table named nobody and nobody was left from before. */
  ghost predicate UsedUp(question: (nat, Address) -> Reply, log: seq<Ask>, rereads: nat, tables: nat -> Placement,
                         asked: set<Address>, queued: seq<Address>, first: Option<Address>, budget: nat) {
    || (rereads == budget && Exhausted(question, log, rereads, tables(rereads), Known(asked, rereads)))
    || (tables(rereads).leader == None && (forall i :: 0 <= i < |log| ==> log[i].round < rereads)
        && (rereads == 0 ==> first == None && queued == []))
  }

  lemma CoversFirst(question: (nat, Address) -> Reply, p: Placement, asked: set<Address>)
    ensures Covers(question, [], 0, p, asked, asked, None)
  {
  }

  lemma CoversNew(question: (nat, Address) -> Reply, log: seq<Ask>, round: nat, p: Placement)
    requires InRounds(log, round)
    ensures Covers(question, log, round + 1, p, {}, {}, None)
  {
  }

  /** One question, and what its refusal leaves. */
  lemma CoversTurn(question: (nat, Address) -> Reply, log: seq<Ask>, round: nat, p: Placement, known: set<Address>,
                   asked: set<Address>, hint: Option<Address>, ask: Ask, asked': set<Address>, hint': Option<Address>)
    requires Covers(question, log, round, p, known, asked, hint) && ask.round == round
    requires asked' == asked + {ask.address} && (hint.Some? ==> hint.value == ask.address)
    requires var h := HintOf(question(|log|, ask.address));
             h.Some? && h.value in p.reachable ==> h.value in asked' || hint' == h
    ensures Covers(question, log + [ask], round, p, known, asked', hint')
  {
    var log' := log + [ask];
    forall a | a in asked' ensures a in known || AskedIn(log', round, a) {
      if a == ask.address {
        assert log'[|log|] == ask;
      } else if a !in known {
        Longer(log, ask, round, a);
      }
    }
    forall i | 0 <= i < |log'| && log'[i].round == round && HintOf(question(i, log'[i].address)).Some?
      ensures var h := HintOf(question(i, log'[i].address)); h.value in p.reachable ==> h.value in asked' || hint' == h
    {
      if i < |log| { assert log'[i] == log[i]; }
    }
  }

  lemma Longer(log: seq<Ask>, ask: Ask, round: nat, a: Address)
    requires AskedIn(log, round, a)
    ensures AskedIn(log + [ask], round, a)
  {
    var i :| 0 <= i < |log| && log[i].round == round && log[i].address == a;
    assert (log + [ask])[i] == log[i];
  }

  lemma ExhaustedStays(question: (nat, Address) -> Reply, log: seq<Ask>, ask: Ask, r: nat, p: Placement,
                       known: set<Address>)
    requires Exhausted(question, log, r, p, known) && r < ask.round
    ensures Exhausted(question, log + [ask], r, p, known)
  {
    hide AskedIn;
    var log' := log + [ask];
    forall a | AskedIn(log, r, a) ensures AskedIn(log', r, a) { Longer(log, ask, r, a); }
    forall i | 0 <= i < |log'| && log'[i].round == r && HintOf(question(i, log'[i].address)).Some?
      ensures var h := HintOf(question(i, log'[i].address));
              h.value in p.reachable ==> h.value in known || AskedIn(log', r, h.value)
    {
      assert i < |log| && log'[i] == log[i];
    }
  }

  lemma AllStay(question: (nat, Address) -> Reply, log: seq<Ask>, ask: Ask, rounds: nat, tables: nat -> Placement,
                asked: set<Address>)
    requires AllExhausted(question, log, rounds, tables, asked) && ask.round == rounds
    ensures AllExhausted(question, log + [ask], rounds, tables, asked)
  {
    hide Exhausted;
    forall r: nat | r < rounds ensures Exhausted(question, log + [ask], r, tables(r), Known(asked, r)) {
      ExhaustedStays(question, log, ask, r, tables(r), Known(asked, r));
    }
  }

  /** Past the first round, the leader the table names has been asked once the round has begun. */
  ghost predicate BeganWithLeader(log: seq<Ask>, round: nat, p: Placement, begun: bool) {
    round > 0 && begun ==> p.leader.Some? && AskedIn(log, round, p.leader.value)
  }

  lemma BeganStays(log: seq<Ask>, round: nat, p: Placement, begun: bool, ask: Ask)
    requires BeganWithLeader(log, round, p, begun) && ask.round == round
    requires round > 0 && !begun ==> p.leader == Some(ask.address)
    ensures BeganWithLeader(log + [ask], round, p, true)
  {
    if begun && round > 0 {
      Longer(log, ask, round, p.leader.value);
    } else {
      assert (log + [ask])[|log|] == ask;
    }
  }

  lemma RoundEnds(question: (nat, Address) -> Reply, log: seq<Ask>, round: nat, p: Placement, known: set<Address>,
                  asked: set<Address>)
    requires Covers(question, log, round, p, known, asked, None) && BeganWithLeader(log, round, p, true)
    requires forall a :: a in p.replicas && a in p.reachable ==> a in asked
    ensures Exhausted(question, log, round, p, known)
  {
    hide AskedIn;
  }

  lemma OneMoreRound(question: (nat, Address) -> Reply, log: seq<Ask>, rounds: nat, tables: nat -> Placement,
                     asked: set<Address>)
    requires AllExhausted(question, log, rounds, tables, asked)
    requires Exhausted(question, log, rounds, tables(rounds), Known(asked, rounds))
    ensures AllExhausted(question, log, rounds + 1, tables, asked)
  {
  }

  lemma NoneExhausted(question: (nat, Address) -> Reply, tables: nat -> Placement, asked: set<Address>)
    ensures AllExhausted(question, [], 0, tables, asked)
  {
  }

  lemma NobodyLeft(question: (nat, Address) -> Reply, log: seq<Ask>, rereads: nat, tables: nat -> Placement,
                   asked0: set<Address>, queued0: seq<Address>, first: Option<Address>, budget: nat, all: set<Address>,
                   hint: Option<Address>, queued: seq<Address>, asked: set<Address>, begun: bool, via: Via,
                   queued': seq<Address>, asked': set<Address>)
    requires HandedOut(tables(rereads), hint, queued, asked, None, via, queued', asked')
    requires Fits(all, tables(rereads), hint, queued) && RoundSound(log, rereads, hint, queued, asked, begun)
    requires if begun then hint.Some? || queued != [] else hint == None
    requires rereads == 0 && !begun ==> first == None && queued == queued0
    ensures UsedUp(question, log, rereads, tables, asked0, queued0, first, budget)
  {
    hide Exhausted;
    HintReachable(all, tables(rereads), hint, queued);
  }

  lemma RanOut(question: (nat, Address) -> Reply, log: seq<Ask>, rereads: nat, tables: nat -> Placement,
               asked0: set<Address>, queued0: seq<Address>, first: Option<Address>)
    requires Exhausted(question, log, rereads, tables(rereads), Known(asked0, rereads))
    ensures UsedUp(question, log, rereads, tables, asked0, queued0, first, rereads)
  {
  }

  predicate Handed(last: Option<Reply>) { last.Some? && last.value.Refused? }

  lemma NothingAsked(question: (nat, Address) -> Reply)
    ensures LastReply(question, []) == None && NoneAnswered(question, [])
  {
  }

  lemma AskedOne(question: (nat, Address) -> Reply, log: seq<Ask>, ask: Ask)
    requires NoneAnswered(question, log)
    ensures var reply := question(|log|, ask.address);
            && LastReply(question, log + [ask]) == Some(reply) && NoneAnswered(question, (log + [ask])[..|log|])
            && (!reply.Answered? && !reply.Failed? ==> NoneAnswered(question, log + [ask]))
  {
    assert (log + [ask])[..|log|] == log;
  }

  lemma ButLast(question: (nat, Address) -> Reply, log: seq<Ask>)
    requires NoneAnswered(question, log)
    ensures log != [] ==> NoneAnswered(question, log[..|log| - 1])
    ensures LastReply(question, log).Some? ==>
        !LastReply(question, log).value.Answered? && !LastReply(question, log).value.Failed?
  {
  }

  /** What the caller is told, by the last reply there was: a refusal that came in a result is handed
      back even when there is nobody left to ask, one that was raised, or no reply, only when the walk
      was used up. */
  ghost predicate EndsAs(outcome: Outcome, last: Option<Reply>) {
    match outcome
    case Result(v) => last == Some(Answered(v))
    case Refusal => last.Some? && last.value.Refused?
    case ScanRefusal => last.Some? && last.value.RefusedScan?
    case Silence => last == Some(Silent)
    case Failure => last == Some(Failed)
    case NoLeader => last.None? || last.value.RefusedScan? || last.value.Silent?
  }

  lemma Told(last: Option<Reply>)
    ensures last.Some? && last.value.Answered? ==> EndsAs(Result(last.value.value), last)
    ensures last == Some(Failed) ==> EndsAs(Failure, last)
    ensures last.Some? && last.value.Refused? ==> EndsAs(Refusal, last)
    ensures last.Some? && last.value.RefusedScan? ==> EndsAs(ScanRefusal, last) && EndsAs(NoLeader, last)
    ensures last == Some(Silent) ==> EndsAs(Silence, last) && EndsAs(NoLeader, last)
    ensures last.None? ==> EndsAs(NoLeader, last)
  {
  }

  /** What a refusal leaves to ask in this round: no more than there was. */
  method TakeRefusal(leaders: ShardLeaders, p: Placement, named: Option<Address>, ghost all: set<Address>,
                     ghost log: seq<Ask>,
                     ghost round: nat)
    returns (more: bool)
    requires Within(all, p) && (named.Some? ==> named.value in all)
    requires leaders.hint == None && Fits(all, p, None, leaders.queued)
    requires RoundSound(log, round, None, leaders.queued, leaders.asked, true)
    modifies leaders
    ensures Fits(all, p, leaders.hint, leaders.queued)
    ensures RoundSound(log, round, leaders.hint, leaders.queued, leaders.asked, true)
    ensures Weight(all, leaders.asked, Members(leaders.queued)) <=
            old(Weight(all, leaders.asked, Members(leaders.queued)))
    ensures if more then leaders.hint.Some? || leaders.queued != [] else leaders.hint == None && leaders.queued == []
    ensures leaders.asked == old(leaders.asked)
    ensures named.Some? && named.value in p.reachable ==> named.value in leaders.asked || leaders.hint == named
    ensures !more ==> forall a :: a in p.replicas && a in p.reachable ==> a in leaders.asked
  {
    hide Fits, RoundSound, Weight, Waiting, Members, Distinct;
    WaitingAll(p.replicas, p.reachable, leaders.asked, leaders.queued);
    ghost var queued, asked := leaders.queued, leaders.asked;
    QueueFits(all, p, queued, asked);
    QueueRound(log, round, queued, asked, p);
    more := leaders.RefusedWith(p, named);
    if leaders.hint.Some? {
      HintRound(log, round, queued, asked, leaders.hint.value);
      HintFits(all, p, leaders.hint.value, queued);
    }
  }

  /** Asks until someone answers or there is nowhere left to ask.  `tables(n)` is what the table
      says after `n` more reads of it, and `question(n, a)` what the `n`-th question is answered,
      put to `a`. */
  method AskShard(leaders: ShardLeaders, tables: nat -> Placement, question: (nat, Address) -> Reply, tableReads: int,
                  first: Option<Address>, ghost all: set<Address>)
    returns (outcome: Outcome, rereads: nat, ghost log: seq<Ask>)
    requires forall n :: Within(all, tables(n))
    requires forall n, a :: HintOf(question(n, a)).Some? ==> HintOf(question(n, a)).value in all
    requires leaders.hint == None && Fits(all, tables(0), None, leaders.queued)
    requires first.Some? ==> first.value in leaders.asked
    modifies leaders
    ensures rereads <= Max(tableReads - 1, 0)
    ensures OnceEach(log) && InRounds(log, rereads)
    ensures leaders.hint == None && Fits(all, tables(rereads), None, leaders.queued)
    ensures EndsAs(outcome, LastReply(question, log))
    ensures log != [] ==> NoneAnswered(question, log[..|log| - 1])
    ensures AllExhausted(question, log, rereads, tables, old(leaders.asked))
    ensures !outcome.Result? && !outcome.Failure? ==>
              UsedUp(question, log, rereads, tables, old(leaders.asked), old(leaders.queued), first,
                     Max(tableReads - 1, 0))
  {
    hide Fits, LastReply, NoneAnswered, Turns, Max, EndsAs, RoundSound, Weight, Waiting, OnceEach, InRounds, Members,
         Distinct, HandedOut, Covers, Exhausted, AllExhausted, UsedUp, BeganWithLeader, AskedIn;
    ghost var known, waiting := leaders.asked, leaders.queued;
    CoversFirst(question, tables(0), known);
    NoneExhausted(question, tables, known);
    assert BeganWithLeader([], 0, tables(0), false) by { NotBegun([], 0, tables(0)); }
    rereads, log := 0, [];
    var asks := 0;
    var readsLeft: int := Max(tableReads - 1, 0);
    var begun, pick := false, first;
    var refused := false;
    FirstRound(leaders.queued, leaders.asked);
    NothingAsked(question);
    while true
      invariant readsLeft >= 0 && rereads + readsLeft == Max(tableReads - 1, 0) && asks == |log|
      invariant Fits(all, tables(rereads), leaders.hint, leaders.queued)
      invariant RoundSound(log, rereads, leaders.hint, leaders.queued, leaders.asked, begun)
      invariant if begun then pick == None && (leaders.hint.Some? || leaders.queued != []) else leaders.hint == None
      invariant pick.Some? ==> pick.value in leaders.asked
      invariant refused == Handed(LastReply(question, log))
      invariant NoneAnswered(question, log)
      invariant AllExhausted(question, log, rereads, tables, known)
      invariant Covers(question, log, rereads, tables(rereads), Known(known, rereads), leaders.asked, leaders.hint)
      invariant BeganWithLeader(log, rereads, tables(rereads), begun)
      invariant if rereads == 0 && !begun then pick == first && leaders.queued == waiting else pick == None
      invariant rereads > 0 && !begun ==> leaders.queued == []
      decreases readsLeft, if begun then 0 else 1, Weight(all, leaders.asked, Members(leaders.queued))
    {
      var p := tables(rereads);
      ghost var hint0, queued0, asked0, log0 := leaders.hint, leaders.queued, leaders.asked, log;
      var client, via := pick, Direct;
      if pick.None? {
        client, via := leaders.LeaderForShard(p);
      }
      if client.None? {
        LogSound(log, rereads, hint0, queued0, asked0, begun);
        ButLast(question, log);
        Told(LastReply(question, log));
        LeftFits(all, p, hint0, queued0, asked0, via, leaders.queued, leaders.asked);
        NobodyLeft(question, log, rereads, tables, known, waiting, first, Max(tableReads - 1, 0), all, hint0, queued0,
                   asked0, begun, via, leaders.queued, leaders.asked);
        return if refused then Refusal else NoLeader, rereads, log;
      }
      log := log + [Ask(rereads, client.value, via)];
      if pick.None? {
        Taken(all, p, log0, rereads, hint0, queued0, asked0, begun, client.value, via, leaders.queued, leaders.asked);
      } else {
        AskKeepsPick(log0, rereads, queued0, asked0, client.value);
        assert asked0 + {client.value} == asked0;
      }
      ghost var ask := Ask(rereads, client.value, via);
      AllStay(question, log0, ask, rereads, tables, known);
      BeganStays(log0, rereads, p, begun, ask);
      var reply := question(asks, client.value);
      AskedOne(question, log0, log[|log| - 1]);
      Told(Some(reply));
      asks := asks + 1;
      pick := None;
      LogSound(log, rereads, None, leaders.queued, leaders.asked, true);
      if reply.Answered? {
        leaders.Forget();
        NothingHeld(all, p);
        return Result(reply.value), rereads, log;
      }
      if reply.Failed? {
        return Failure, rereads, log;
      }
      refused := reply.Refused?;
      var more := TakeRefusal(leaders, p, HintOf(reply), all, log, rereads);
      CoversTurn(question, log0, rereads, p, Known(known, rereads), asked0, hint0, ask, leaders.asked, leaders.hint);
      if more {
        begun := true;
        continue;
      }
      RoundEnds(question, log, rereads, p, Known(known, rereads), leaders.asked);
      if readsLeft == 0 {
        RanOut(question, log, rereads, tables, known, waiting, first);
        NothingHeld(all, p);
        return if reply.RefusedScan? then ScanRefusal else if reply.Silent? then Silence else Refusal, rereads, log;
      }
      readsLeft := readsLeft - 1;
      NewRound(log, rereads, leaders.hint, leaders.queued, leaders.asked);
      OneMoreRound(question, log, rereads, tables, known);
      CoversNew(question, log, rereads, tables(rereads + 1));
      NotBegun(log, rereads + 1, tables(rereads + 1));
      leaders.Forget();
      rereads := rereads + 1;
      begun := false;
      NothingHeld(all, tables(rereads));
    }
  }

  lemma NotBegun(log: seq<Ask>, round: nat, p: Placement)
    ensures BeganWithLeader(log, round, p, false)
  {
  }

  lemma AskKeepsPick(log: seq<Ask>, round: nat, queued: seq<Address>, asked: set<Address>, a: Address)
    requires RoundSound(log, round, None, queued, asked, false) && a in asked
    ensures RoundSound(log + [Ask(round, a, Direct)], round, None, queued, asked, true)
  {
  }

  lemma HintReachable(all: set<Address>, p: Placement, hint: Option<Address>, queued: seq<Address>)
    requires Fits(all, p, hint, queued)
    ensures hint.Some? ==> hint.value in p.reachable
    ensures queued != [] ==> queued[0] in p.reachable
    ensures Fits(all, p, None, queued)
  {
    if queued != [] { assert queued[0] in Members(queued); }
  }

  lemma LeftFits(all: set<Address>, p: Placement, hint: Option<Address>, queued: seq<Address>, asked: set<Address>,
                 via: Via,
                 queued': seq<Address>, asked': set<Address>)
    requires HandedOut(p, hint, queued, asked, None, via, queued', asked')
    ensures Fits(all, p, None, queued')
  {
  }

  lemma HintFits(all: set<Address>, p: Placement, named: Address, queued: seq<Address>)
    requires Fits(all, p, None, queued) && named in p.reachable && named in all
    ensures Fits(all, p, Some(named), queued)
  {
  }

  lemma NothingHeld(all: set<Address>, p: Placement)
    ensures Fits(all, p, None, [])
  {
  }
}
