/** The clock: a replicated counter handed out in runs, and clients that hold a run each. */
module Tso {
  import opened Common

  /** What a client holds: the numbers from `next` up to, and not including, `end`. */
  datatype Hand = Hand(next: int, end: int)

  const EMPTY_HAND := Hand(0, 0)

  /** The run one allocation hands out, both ends inclusive. */
  function Allocated(counter: int, batch: int): (int, int) { (counter + 1, counter + batch) }

  /** The hand a client is left with by an answer: a run, or nothing, when the answer came back
      without one. */
  function Fetched(answer: Option<(int, int)>): Hand {
    match answer
    case Some(run) => Hand(run.0, run.1 + 1)
    case None => Hand(0, 1)
  }

  // ---- as it runs -----------------------------------------------------------------

  class TSOSMStateMachine {
    var currentTs: int

    constructor ()
      ensures currentTs == 0
    {
      currentTs := 0;
    }

    method ApplyAllocate(batch: int) returns (run: (int, int))
      modifies this
      ensures run == Allocated(old(currentTs), batch) && currentTs == old(currentTs) + batch
    {
      run := (currentTs + 1, currentTs + batch);
      currentTs := currentTs + batch;
    }

    method Snapshot() returns (data: int)
      ensures data == currentTs
    {
      data := currentTs;
    }

    method Restore(data: int)
      modifies this
      ensures currentTs == data
    {
      currentTs := data;
    }
  }

  class TSOClient {
    const batch: int
    var localStart: int
    var localEnd: int

    constructor (batch: int)
      ensures this.batch == batch && View() == EMPTY_HAND
    {
      this.batch := batch;
      localStart, localEnd := 0, 0;
    }

    function View(): Hand
      reads this
    {
      Hand(localStart, localEnd)
    }

    /** One number, out of the run in hand or out of a new one. */
    method GetTimestamp(clock: TSOSMStateMachine) returns (ts: int)
      modifies this, clock
      ensures var h := old(View());
              var h' := if h.next >= h.end then Fetched(Some(Allocated(old(clock.currentTs), batch))) else h;
              && ts == h'.next && View() == Hand(h'.next + 1, h'.end)
              && clock.currentTs == if h.next >= h.end then old(clock.currentTs) + batch else old(clock.currentTs)
    {
      if localStart >= localEnd {
        var run := clock.ApplyAllocate(batch);
        localStart, localEnd := run.0, run.1 + 1;
      }
      ts := localStart;
      localStart := localStart + 1;
    }
  }

  // ---- any number of clients ------------------------------------------------------

  /** A run some client was handed, and the first number of it not yet used. */
  datatype Run = Run(client: nat, first: int, last: int, next: int)

  /** A number handed out, and the run it is of. */
  datatype Use = Use(run: nat, ts: int)

  /** The counter, its last snapshot with the allocations committed since, and every client's hand;
      beside them every run taken, which of them each client has in hand, and every number used, in
      order. */
  datatype Clock = Clock(
    counter: int, saved: int, since: seq<int>,
    hands: map<nat, Hand>, runs: seq<Run>, held: map<nat, nat>, used: seq<Use>)

  const NEW_CLOCK := Clock(0, 0, [], map[], [], map[], [])

  datatype Step =
    | Take(client: nat, batch: int, answered: bool)   // a client wants a number
    | Lost(batch: int)                                // a run allocated that reached nobody
    | Save                                            // the counter is snapshotted and its log dropped
    | Restart(replayed: bool)                         // it is restored, and the log since applied again

  /** One allocation committed: the counter after it, and the log of it. */
  function Advanced(c: Clock, batch: int): Clock {
    c.(counter := Allocated(c.counter, batch).1, since := c.since + [batch])
  }

  /** The counter a restored machine comes to by applying a log of allocations. */
  function Replayed(saved: int, since: seq<int>): int {
    if since == [] then saved else Allocated(Replayed(saved, since[..|since| - 1]), since[|since| - 1]).1
  }

  function HandOf(c: Clock, client: nat): Hand {
    if client in c.hands then c.hands[client] else EMPTY_HAND
  }

  /** A client with nothing left in hand takes a run. */
  function Refilled(c: Clock, client: nat, batch: int, answered: bool): Clock {
    var h := HandOf(c, client);
    if h.next < h.end then c
    else
      var run := Allocated(c.counter, batch);
      Advanced(c, batch).(hands := c.hands[client := Fetched(if answered then Some(run) else None)],
                          runs := c.runs + [if answered then Run(client, run.0, run.1, run.0)
                                            else Run(client, 0, 0, 0)],
                          held := c.held[client := |c.runs|])
  }

  /** And hands out the next number of the run in hand. */
  function Drawn(c: Clock, client: nat): Clock
    requires client in c.hands && client in c.held && c.held[client] < |c.runs|
  {
    var h, i := c.hands[client], c.held[client];
    c.(hands := c.hands[client := Hand(h.next + 1, h.end)],
       runs := c.runs[i := c.runs[i].(next := h.next + 1)], used := c.used + [Use(i, h.next)])
  }

  function Next(c: Clock, s: Step): Clock {
    match s
    case Take(client, batch, answered) =>
      var r := Refilled(c, client, batch, answered);
      if client in r.hands && client in r.held && r.held[client] < |r.runs| then Drawn(r, client) else r
    case Lost(batch) => Advanced(c, batch)
    case Save => c.(saved := c.counter, since := [])
    case Restart(replayed) => c.(counter := if replayed then Replayed(c.saved, c.since) else c.saved)
  }

  function After(steps: seq<Step>): Clock {
    if steps == [] then NEW_CLOCK else Next(After(steps[..|steps| - 1]), steps[|steps| - 1])
  }

  /** Runs are of at least one number, every answer carries its run, and a restored counter applies
      what was committed since its snapshot. */
  predicate Sound(s: Step) {
    match s
    case Take(_, batch, answered) => batch >= 1 && answered
    case Lost(batch) => batch >= 1
    case Save => true
    case Restart(replayed) => replayed
  }

  // ---- never twice ----------------------------------------------------------------

  ghost predicate RunSound(c: Clock, i: nat)
    requires i < |c.runs|
  {
    var r := c.runs[i];
    && r.first <= r.next <= r.last + 1 && r.first <= r.last <= c.counter
    && r.client in c.held && i <= c.held[r.client]
    && (i < c.held[r.client] ==> r.next == r.last + 1)
  }

  ghost predicate RunsSound(c: Clock) {
    && (forall i: nat {:trigger RunSound(c, i)} :: i < |c.runs| ==> RunSound(c, i))
    && (forall i, j :: 0 <= i < j < |c.runs| ==> c.runs[i].last < c.runs[j].first)
  }

  /** A client's hand is the unused part of the run it took last. */
  ghost predicate HandsSound(c: Clock) {
    && c.hands.Keys == c.held.Keys
    && forall p :: p in c.held ==>
         && c.held[p] < |c.runs|
         && var r := c.runs[c.held[p]];
         && r.client == p && c.hands[p] == Hand(r.next, r.last + 1)
  }

  ghost predicate InUsedPart(c: Clock, u: Use) {
    u.run < |c.runs| && c.runs[u.run].first <= u.ts < c.runs[u.run].next
  }

  /** The numbers used are exactly the used parts of the runs, each once. */
  ghost predicate UsedSound(c: Clock) {
    && (forall k :: 0 <= k < |c.used| ==> InUsedPart(c, c.used[k]))
    && (forall u :: InUsedPart(c, u) ==> u in c.used)
    && (forall k, l :: 0 <= k < l < |c.used| ==> c.used[k].ts != c.used[l].ts)
  }

  ghost predicate SameClient(c: Clock, u: Use, w: Use) {
    u.run < |c.runs| && w.run < |c.runs| && c.runs[u.run].client == c.runs[w.run].client
  }

  ghost predicate StreamsIncrease(c: Clock) {
    forall k, l :: 0 <= k < l < |c.used| && SameClient(c, c.used[k], c.used[l]) ==> c.used[k].ts < c.used[l].ts
  }

  /** The snapshot and the log since it are the counter. */
  ghost predicate LogSound(c: Clock) { Replayed(c.saved, c.since) == c.counter }

  ghost predicate ClockInv(c: Clock) {
    RunsSound(c) && HandsSound(c) && UsedSound(c) && StreamsIncrease(c) && LogSound(c)
  }

  lemma AdvancedLog(c: Clock, batch: int)
    requires LogSound(c)
    ensures LogSound(Advanced(c, batch))
  {
    var since := c.since + [batch];
    assert since[..|since| - 1] == c.since;
  }

  lemma RefillRuns(c: Clock, client: nat, batch: int)
    requires RunsSound(c) && HandsSound(c) && batch >= 1 && HandOf(c, client).next >= HandOf(c, client).end
    ensures RunsSound(Refilled(c, client, batch, true)) && HandsSound(Refilled(c, client, batch, true))
  {
    var r := Refilled(c, client, batch, true);
    var n := |c.runs|;
    forall i: nat | i <= n ensures RunSound(r, i) {
      if i < n {
        assert RunSound(c, i);
      }
    }
    forall i | 0 <= i < n ensures c.runs[i].last < r.runs[n].first {
      assert RunSound(c, i);
    }
  }

  /** The used parts of the runs stay what they are when an unused run is added. */
  lemma RefillUsed(c: Clock, r: Clock, run: Run)
    requires UsedSound(c) && StreamsIncrease(c) && r.runs == c.runs + [run] && run.next == run.first && r.used == c.used
    ensures UsedSound(r) && StreamsIncrease(r)
  {
    forall u ensures InUsedPart(r, u) <==> InUsedPart(c, u) {
    }
    forall k, l | 0 <= k < l < |r.used| && SameClient(r, r.used[k], r.used[l]) ensures r.used[k].ts < r.used[l].ts {
      assert InUsedPart(c, c.used[k]) && InUsedPart(c, c.used[l]);
      assert SameClient(c, c.used[k], c.used[l]);
    }
  }

  lemma RefillKeeps(c: Clock, client: nat, batch: int)
    requires ClockInv(c) && batch >= 1
    ensures var r := Refilled(c, client, batch, true);
            ClockInv(r) && client in r.hands && r.hands[client].next < r.hands[client].end
  {
    hide RunsSound, UsedSound, StreamsIncrease;
    var h := HandOf(c, client);
    if h.next >= h.end {
      RefillRuns(c, client, batch);
      var run := Allocated(c.counter, batch);
      RefillUsed(c, Refilled(c, client, batch, true), Run(client, run.0, run.1, run.0));
    }
  }

  /** Whatever was used before, the next number of the run in hand was not, and it is past all
      this client had. */
  lemma NextIsNew(c: Clock, client: nat, u: Use)
    requires RunsSound(c) && HandsSound(c) && InUsedPart(c, u)
    requires client in c.hands && c.hands[client].next < c.hands[client].end
    ensures u.ts != c.hands[client].next
    ensures c.runs[u.run].client == client ==> u.ts < c.hands[client].next
  {
    var i := c.held[client];
    assert RunSound(c, u.run) && RunSound(c, i);
  }

  lemma DrawRuns(c: Clock, client: nat)
    requires RunsSound(c) && HandsSound(c) && client in c.hands && c.hands[client].next < c.hands[client].end
    ensures RunsSound(Drawn(c, client)) && HandsSound(Drawn(c, client))
  {
    var d := Drawn(c, client);
    DrawHands(c, client);
    forall j: nat | j < |d.runs| ensures RunSound(d, j) {
      DrawRun(c, client, j);
    }
  }

  lemma DrawHands(c: Clock, client: nat)
    requires RunsSound(c) && HandsSound(c) && client in c.hands && c.hands[client].next < c.hands[client].end
    ensures HandsSound(Drawn(c, client))
  {
    hide RunSound;
  }

  lemma DrawRun(c: Clock, client: nat, j: nat)
    requires RunsSound(c) && HandsSound(c) && client in c.hands && c.hands[client].next < c.hands[client].end
    requires j < |c.runs|
    ensures j < |Drawn(c, client).runs| && RunSound(Drawn(c, client), j)
  {
    assert RunSound(c, j);
  }

  lemma DrawUsed(c: Clock, client: nat)
    requires ClockInv(c) && client in c.hands && c.hands[client].next < c.hands[client].end
    ensures UsedSound(Drawn(c, client)) && StreamsIncrease(Drawn(c, client))
  {
    var d := Drawn(c, client);
    var i, n := c.held[client], |c.used|;
    var new_ := Use(i, c.hands[client].next);
    assert RunSound(c, i);
    hide RunsSound, HandsSound, StreamsIncrease, RunSound;
    forall u ensures InUsedPart(d, u) <==> InUsedPart(c, u) || u == new_ {
    }
    forall k: nat | k < n
      ensures InUsedPart(c, c.used[k]) && c.used[k].ts != new_.ts
      ensures SameClient(d, c.used[k], new_) ==> c.used[k].ts < new_.ts
    {
      assert InUsedPart(c, c.used[k]);
      NextIsNew(c, client, c.used[k]);
    }
    DrawStreams(c, d, new_);
  }

  lemma DrawStreams(c: Clock, d: Clock, w: Use)
    requires StreamsIncrease(c) && d.used == c.used + [w] && |d.runs| == |c.runs|
    requires forall i :: 0 <= i < |c.runs| ==> d.runs[i].client == c.runs[i].client
    requires forall k :: 0 <= k < |c.used| && SameClient(d, c.used[k], w) ==> c.used[k].ts < w.ts
    ensures StreamsIncrease(d)
  {
    forall k, l | 0 <= k < l < |d.used| && SameClient(d, d.used[k], d.used[l]) ensures d.used[k].ts < d.used[l].ts {
      if l < |c.used| {
        assert SameClient(c, c.used[k], c.used[l]);
      }
    }
  }

  lemma DrawKeeps(c: Clock, client: nat)
    requires ClockInv(c) && client in c.hands && c.hands[client].next < c.hands[client].end
    ensures ClockInv(Drawn(c, client))
  {
    hide RunsSound, UsedSound, StreamsIncrease;
    DrawRuns(c, client);
    DrawUsed(c, client);
  }

  lemma LostKeeps(c: Clock, batch: int)
    requires ClockInv(c) && batch >= 1
    ensures ClockInv(Advanced(c, batch))
  {
    AdvancedLog(c, batch);
    var d := Advanced(c, batch);
    forall i: nat | i < |c.runs| ensures RunSound(d, i) {
      assert RunSound(c, i);
    }
    forall u ensures InUsedPart(c, u) <==> InUsedPart(d, u) {
    }
  }

  lemma {:induction false} AfterKeeps(steps: seq<Step>)
    requires forall i :: 0 <= i < |steps| ==> Sound(steps[i])
    ensures ClockInv(After(steps))
  {
    hide ClockInv, Refilled, Drawn;
    if steps == [] {
      NewClockInv();
    } else {
      var n := |steps| - 1;
      AfterKeeps(steps[..n]);
      var c := After(steps[..n]);
      match steps[n]
      case Take(client, batch, _) => TakeKeeps(c, client, batch);
      case Lost(batch) => LostKeeps(c, batch);
      case Save => SaveKeeps(c);
      case Restart(_) => RestartKeeps(c);
    }
  }

  lemma SaveKeeps(c: Clock)
    requires ClockInv(c)
    ensures ClockInv(Next(c, Save))
  {
    hide RunSound, Allocated;
    var d := Next(c, Save);
    forall i: nat | i < |d.runs| ensures RunSound(d, i) { SameRunSound(c, d, i); }
    forall u ensures InUsedPart(c, u) <==> InUsedPart(d, u) {
    }
  }

  lemma SameRunSound(c: Clock, d: Clock, i: nat)
    requires d == c.(saved := d.saved, since := d.since) && i < |c.runs| && RunSound(c, i)
    ensures RunSound(d, i)
  {
  }

  /** A restore that is followed by the log since the snapshot is no change at all. */
  lemma RestartKeeps(c: Clock)
    requires ClockInv(c)
    ensures Next(c, Restart(true)) == c
  {
  }

  lemma NewClockInv()
    ensures ClockInv(NEW_CLOCK)
  {
  }

  lemma TakeKeeps(c: Clock, client: nat, batch: int)
    requires ClockInv(c) && batch >= 1
    ensures ClockInv(Next(c, Take(client, batch, true)))
  {
    RefillKeeps(c, client, batch);
    DrawKeeps(Refilled(c, client, batch, true), client);
  }

  // ---- what every interleaving promises -------------------------------------------

  /** Over every interleaving of any number of clients: no number is handed out twice, each
      client's numbers go up, and no number of a run before a client's place in it is skipped. */
  lemma TimestampsOnce(steps: seq<Step>)
    requires forall i :: 0 <= i < |steps| ==> Sound(steps[i])
    ensures var c := After(steps);
            && (forall k, l :: 0 <= k < l < |c.used| ==> c.used[k].ts != c.used[l].ts)
            && StreamsIncrease(c)
            && (forall i: nat, t :: i < |c.runs| && c.runs[i].first <= t < c.runs[i].next ==> Use(i, t) in c.used)
            && (forall i: nat :: 0 <= i < |c.runs| && c.runs[i].client in c.held && c.held[c.runs[i].client] != i ==>
                  c.runs[i].next == c.runs[i].last + 1)
  {
    hide After;
    AfterKeeps(steps);
    var c := After(steps);
    forall i: nat, t | i < |c.runs| && c.runs[i].first <= t < c.runs[i].next ensures Use(i, t) in c.used {
      assert InUsedPart(c, Use(i, t));
    }
    forall i: nat | i < |c.runs| && c.runs[i].client in c.held && c.held[c.runs[i].client] != i
      ensures c.runs[i].next == c.runs[i].last + 1
    {
      assert RunSound(c, i);
    }
  }

  /** An answer that comes back without its run makes two clients hand out the same number. */
  lemma UnansweredRepeats(batch: int)
    ensures var c := After([Take(0, batch, false), Take(1, batch, false)]);
            |c.used| == 2 && c.used[0].ts == c.used[1].ts == 0
  {
    var steps := [Take(0, batch, false), Take(1, batch, false)];
    assert steps[..1] == [steps[0]] && [steps[0]][..0] == [];
    assert After([steps[0]]) == Next(NEW_CLOCK, steps[0]);
    assert After(steps) == Next(After(steps[..1]), steps[1]);
  }

  /** Runs of no numbers make one client hand out a number no greater than its last. */
  lemma EmptyRunRepeats(batch: int)
    requires batch <= 0
    ensures var c := After([Take(0, batch, true), Take(0, batch, true)]);
            |c.used| == 2 && c.used[0] == Use(0, 1) && c.used[1] == Use(1, batch + 1)
            && |c.runs| == 2 && c.runs[0].client == c.runs[1].client
  {
    var steps := [Take(0, batch, true), Take(0, batch, true)];
    assert steps[..1] == [steps[0]] && [steps[0]][..0] == [];
    assert After([steps[0]]) == Next(NEW_CLOCK, steps[0]);
    assert After(steps) == Next(After(steps[..1]), steps[1]);
  }

  /** A restored counter that is not brought up to date hands out a run a second time. */
  lemma StaleRestoreRepeats(batch: int)
    requires batch >= 1
    ensures var c := After([Take(0, batch, true), Restart(false), Take(1, batch, true)]);
            |c.used| == 2 && c.used[0].ts == c.used[1].ts == 1
  {
    var a, b, d := Take(0, batch, true), Restart(false), Take(1, batch, true);
    assert [a, b, d][..2] == [a, b] && [a, b][..1] == [a] && [a][..0] == [];
    assert After([a]) == Next(NEW_CLOCK, a);
    assert After([a, b]) == Next(After([a]), b);
    assert After([a, b, d]) == Next(After([a, b]), d);
  }

  lemma {:induction false} ReplayGrows(saved: int, since: seq<int>)
    requires forall i :: 0 <= i < |since| ==> since[i] >= 1
    ensures Replayed(saved, since) >= saved + |since|
  {
    if since != [] { ReplayGrows(saved, since[..|since| - 1]); }
  }

  lemma {:induction false} BatchesSince(steps: seq<Step>)
    requires forall i :: 0 <= i < |steps| ==> Sound(steps[i])
    ensures forall i :: 0 <= i < |After(steps).since| ==> After(steps).since[i] >= 1
  {
    if steps != [] { BatchesSince(steps[..|steps| - 1]); }
  }

  /** A restart brings the counter back to where it was if and only if the log is applied again, or
      nothing was allocated since the snapshot; and never further. */
  lemma RestartIff(steps: seq<Step>, replayed: bool)
    requires forall i :: 0 <= i < |steps| ==> Sound(steps[i])
    ensures var c := After(steps);
            && (Next(c, Restart(replayed)).counter == c.counter <==> replayed || c.since == [])
            && Next(c, Restart(replayed)).counter <= c.counter
  {
    hide After;
    AfterKeeps(steps);
    BatchesSince(steps);
    ReplayGrows(After(steps).saved, After(steps).since);
  }

  ghost predicate EachOnce(c: Clock) {
    (forall k, l :: 0 <= k < l < |c.used| ==> c.used[k].ts != c.used[l].ts) && StreamsIncrease(c)
  }

  predicate Takes(steps: seq<Step>, batch: int, answered: bool) {
    forall i :: 0 <= i < |steps| ==> steps[i].Take? && steps[i].batch == batch && steps[i].answered == answered
  }

  /** Exactly when it holds: over every interleaving of clients that fetch `batch` at a time, no
      number repeats and each client's go up, if and only if a run has a number in it and the answer
      that carries it is not lost. */
  lemma BatchDecides(batch: int, answered: bool)
    ensures (forall steps :: Takes(steps, batch, answered) ==> EachOnce(After(steps))) <==> batch >= 1 && answered
  {
    hide After;
    if batch >= 1 && answered {
      forall steps | Takes(steps, batch, answered) ensures EachOnce(After(steps)) {
        TimestampsOnce(steps);
      }
    } else if !answered {
      UnansweredRepeats(batch);
      var steps := [Take(0, batch, false), Take(1, batch, false)];
      assert Takes(steps, batch, answered) && !EachOnce(After(steps));
    } else {
      EmptyRunRepeats(batch);
      var steps := [Take(0, batch, true), Take(0, batch, true)];
      var c := After(steps);
      assert Takes(steps, batch, answered) && !EachOnce(c) by {
        assert SameClient(c, c.used[0], c.used[1]);
      }
    }
  }
}
