/** The goroutine that hands delayed requests back to the queue. */
module WaitingLoops {
  import opened Lanes
  import opened Protocol
  import opened QueueSpec
  import opened DelayHeap
  import opened DelayedItems
  import opened LoopLog

  /** What ends a select: the closed stopCh, the heartbeat or the timer, or a request. */
  datatype Wake = Stop | Fire | Incoming

  /** One turn of the loop: the clock reading it drains by, what the other goroutines do while it
      sleeps, what wakes it, and the readings taken for the requests it then receives. */
  datatype Round = Round(now: Time, others: seq<Op>, wake: Wake, clock: nat -> Time)

  /** The readings a log was drained by. */
  function Drains(log: seq<Act>): seq<Time> {
    if log == [] then []
    else
      var a := log[|log| - 1];
      Drains(log[..|log| - 1]) + (if a.Slept? then [a.now] else [])
  }

  /** What the others did, as the log has it. */
  function OthersOf(log: seq<Act>): seq<seq<Op>> {
    if log == [] then []
    else
      var a := log[|log| - 1];
      OthersOf(log[..|log| - 1]) + (if a.Others? then [a.ops] else [])
  }

  /** These acts pass on exactly what was due, with its time, each item once, earliest first. */
  ghost predicate Drained(acts: seq<Act>, before: map<Item, Time>, now: Time) {
    && (forall k :: 0 <= k < |acts| ==>
          && acts[k].PassedOn? && acts[k].now == now
          && acts[k].item in before && before[acts[k].item] == acts[k].readyAt <= now)
    && (forall j, k :: 0 <= j < k < |acts| ==> acts[j].readyAt <= acts[k].readyAt && acts[j].item != acts[k].item)
    && (forall x :: x in before && before[x] <= now ==> PassedOn(x, before[x], now) in acts)
  }

  /** Halfway: what is not passed on yet still waits, and is no earlier. */
  ghost predicate Draining(acts: seq<Act>, before: map<Item, Time>, waiting: map<Item, Time>, now: Time) {
    && (forall k :: 0 <= k < |acts| ==>
          && acts[k].PassedOn? && acts[k].now == now
          && acts[k].item in before && before[acts[k].item] == acts[k].readyAt <= now
          && acts[k].item !in waiting)
    && (forall j, k :: 0 <= j < k < |acts| ==> acts[j].readyAt <= acts[k].readyAt && acts[j].item != acts[k].item)
    && (forall k, x :: 0 <= k < |acts| && x in waiting ==> acts[k].readyAt <= waiting[x])
    && (forall x :: x in waiting ==> x in before && waiting[x] == before[x])
    && (forall x :: x in before && x !in waiting ==> PassedOn(x, before[x], now) in acts)
  }

  lemma DrainOneMore(acts: seq<Act>, before: map<Item, Time>, waiting: map<Item, Time>, x: Item, now: Time)
    requires Draining(acts, before, waiting, now)
    requires x in waiting && waiting[x] <= now && forall y :: y in waiting ==> waiting[x] <= waiting[y]
    ensures Draining(acts + [PassedOn(x, waiting[x], now)], before, waiting - {x}, now)
  {
  }

  lemma DrainIsOver(acts: seq<Act>, before: map<Item, Time>, waiting: map<Item, Time>, now: Time)
    requires Draining(acts, before, waiting, now)
    requires forall x :: x in waiting ==> waiting[x] > now
    ensures Drained(acts, before, now) && waiting == Later(before, now)
  {
  }

  /** Takes ready entries off the heap, earliest first, until the first that is not due. */
  method DrainReady(delayed: Delayed, now: Time) returns (acts: seq<Act>)
    requires delayed.Valid()
    modifies delayed, delayed.heap, delayed.heap.Nodes()`index
    ensures delayed.Valid() && delayed.View() == Later(old(delayed.View()), now)
    ensures Drained(acts, old(delayed.View()), now)
    ensures delayed.heap.Nodes() <= old(delayed.heap.Nodes())
  {
    acts := [];
    while delayed.heap.Len() > 0
      invariant delayed.Valid() && Draining(acts, old(delayed.View()), delayed.View(), now)
      invariant delayed.heap.Nodes() <= old(delayed.heap.Nodes())
      decreases |delayed.heap.pq|
    {
      delayed.PeekShowsTheEarliest();
      var entry := delayed.heap.Peek();
      if entry.readyAt > now {
        break;
      }
      DrainOneMore(acts, old(delayed.View()), delayed.View(), entry.data, now);
      entry := delayed.TakeEarliest();
      acts := acts + [PassedOn(entry.data, entry.readyAt, now)];
    }
    delayed.PeekShowsTheEarliest();
    DrainIsOver(acts, old(delayed.View()), delayed.View(), now);
  }

  /** What is still waiting once the first k of these acts are made. */
  function Without(before: map<Item, Time>, acts: seq<Act>, k: nat, now: Time): map<Item, Time>
    requires k <= |acts|
  {
    map x | x in before && PassedOn(x, before[x], now) !in acts[..k] :: before[x]
  }

  lemma WithoutOneMore(before: map<Item, Time>, acts: seq<Act>, k: nat, now: Time)
    requires Drained(acts, before, now) && k < |acts|
    ensures var x, waiting := acts[k].item, Without(before, acts, k, now);
            && x in waiting && waiting[x] == acts[k].readyAt && acts[k] == PassedOn(x, waiting[x], now)
            && Without(before, acts, k + 1, now) == waiting - {x}
  {
  }

  lemma TakeOneMore(log: seq<Act>, acts: seq<Act>, k: nat)
    requires 0 < k <= |acts|
    ensures log + acts[..k - 1] + [acts[k - 1]] == log + acts[..k]
  {
  }

  lemma {:induction false} DrainKeepsContract(log: seq<Act>, before: map<Item, Time>, acts: seq<Act>, k: nat, now: Time)
    requires Contract(log, before) && Drained(acts, before, now) && k <= |acts|
    ensures Contract(log + acts[..k], Without(before, acts, k, now))
  {
    if k == 0 {
      assert log + acts[..0] == log && Without(before, acts, 0, now) == before;
    } else {
      var a, earlier, waiting := acts[k - 1], log + acts[..k - 1], Without(before, acts, k - 1, now);
      DrainKeepsContract(log, before, acts, k - 1, now);
      WithoutOneMore(before, acts, k - 1, now);
      hide Contract, Drained, Without;
      PassOn(earlier, waiting, a.item, a.readyAt, now);
      TakeOneMore(log, acts, k);
    }
  }

  lemma DrainedKeepsContract(log: seq<Act>, before: map<Item, Time>, acts: seq<Act>, now: Time)
    requires Contract(log, before) && Drained(acts, before, now)
    ensures Contract(log + acts, Later(before, now))
  {
    DrainKeepsContract(log, before, acts, |acts|, now);
    assert acts[..|acts|] == acts;
    assert Without(before, acts, |acts|, now) == Later(before, now) by {
      forall x | x in before ensures before[x] > now <==> PassedOn(x, before[x], now) !in acts {
      }
    }
  }

  /** Nothing a drain does can be refused by the queue. */
  lemma PassingExplains(cfg: Config, s: QueueState, acts: seq<Act>)
    requires forall k :: 0 <= k < |acts| ==> acts[k].PassedOn?
    ensures Explains(cfg, s, acts, Replay(cfg, s, acts))
  {
  }

  /** What becomes of the first k requests of a channel, read by these readings of the clock, and of
      the delayed items. */
  function Handling(channel: seq<Request>, clock: nat -> Time, k: nat, before: map<Item, Time>)
    : (seq<Act>, map<Item, Time>)
    requires k <= |channel|
  {
    if k == 0 then ([], before)
    else
      var (acts, waiting) := Handling(channel, clock, k - 1, before);
      var (x, t, now) := (channel[k - 1].item, channel[k - 1].readyAt, clock(k - 1));
      if t > now then (acts + [Received(x, t)], Earliest(waiting, x, t))
      else (acts + [Received(x, t), PassedOn(x, t, now)], waiting)
  }

  lemma HandlesOneMore(channel: seq<Request>, clock: nat -> Time, k: nat, before: map<Item, Time>)
    requires k < |channel|
    ensures Handling(channel, clock, 0, before) == ([], before)
    ensures var (acts, waiting) := Handling(channel, clock, k, before);
            var (x, t, now) := (channel[k].item, channel[k].readyAt, clock(k));
            Handling(channel, clock, k + 1, before)
            == if t > now then (acts + [Received(x, t)], Earliest(waiting, x, t))
               else (acts + [Received(x, t), PassedOn(x, t, now)], waiting)
  {
  }

  /** Takes requests off the channel until it is empty: each is delayed, or passed on if it is due. */
  method ReceiveAll(cfg: Config, delayed: Delayed, s0: QueueState, clock: nat -> Time, ghost log: seq<Act>)
    returns (acts: seq<Act>, s: QueueState)
    requires delayed.Valid() && Contract(log, delayed.View())
    modifies delayed, delayed.heap, delayed.heap.Nodes()
    ensures delayed.Valid() && Contract(log + acts, delayed.View())
    ensures Explains(cfg, s0, acts, s) && s.channel == [] && Drains(acts) == [] && OthersOf(acts) == []
    ensures (acts, delayed.View()) == Handling(s0.channel, clock, |s0.channel|, old(delayed.View()))
    ensures fresh(delayed.heap.Nodes() - old(delayed.heap.Nodes()))
  {
    hide Delayed.Valid;
    hide Contract;
    hide Explains;
    hide Drains, OthersOf;
    acts, s := [], s0;
    assert Handling(s0.channel, clock, 0, delayed.View()) == ([], delayed.View());
    hide Handling;
    NothingYet(cfg, s0);
    assert log + acts == log;
    var k := 0;
    while s.channel != []
      invariant delayed.Valid() && Contract(log + acts, delayed.View())
      invariant Explains(cfg, s0, acts, s) && Drains(acts) == [] && OthersOf(acts) == []
      invariant k <= |s0.channel| && s.channel == s0.channel[k..]
      invariant (acts, delayed.View()) == Handling(s0.channel, clock, k, old(delayed.View()))
      invariant fresh(delayed.heap.Nodes() - old(delayed.heap.Nodes()))
      decreases |s.channel|
    {
      var request := s.channel[0];
      ghost var before := acts;
      HandlesOneMore(s0.channel, clock, k, old(delayed.View()));
      var more := ReceiveOne(delayed, request, clock(k), log + acts);
      assert log + (before + more) == log + acts + more;
      OneAct(cfg, s0, acts, s, more[0]);
      s, acts := AfterAct(cfg, s, more[0]), acts + [more[0]];
      if |more| == 2 {
        OneAct(cfg, s0, acts, s, more[1]);
        s, acts := AfterAct(cfg, s, more[1]), acts + [more[1]];
      }
      assert acts == before + more;
      k := k + 1;
    }
  }

  method ReceiveOne(delayed: Delayed, request: Request, now: Time, ghost log: seq<Act>) returns (more: seq<Act>)
    requires delayed.Valid() && Contract(log, delayed.View())
    modifies delayed, delayed.heap, delayed.heap.Nodes()
    ensures delayed.Valid() && Contract(log + more, delayed.View())
    ensures var a := Received(request.item, request.readyAt);
            if request.readyAt > now then
              more == [a] && delayed.View() == Earliest(old(delayed.View()), request.item, request.readyAt)
            else
              more == [a, PassedOn(request.item, request.readyAt, now)] && delayed.View() == old(delayed.View())
    ensures fresh(delayed.heap.Nodes() - old(delayed.heap.Nodes()))
  {
    hide Delayed.Valid;
    hide Contract;
    hide Explains;
    var x, t := request.item, request.readyAt;
    if t > now {
      ReceiveLate(log, delayed.View(), x, t);
      var entry := new WaitFor(x, t);
      delayed.Insert(entry);
      more := [Received(x, t)];
    } else {
      ReceiveDue(log, delayed.View(), x, t, now);
      more := [Received(x, t), PassedOn(x, t, now)];
      assert log + more == log + [Received(x, t)] + [PassedOn(x, t, now)];
    }
  }

  lemma {:induction false} DrainsMore(log: seq<Act>, acts: seq<Act>)
    ensures Drains(log + acts) == Drains(log) + Drains(acts)
    decreases |acts|
  {
    if acts == [] {
      assert log + acts == log;
    } else {
      var n := |acts| - 1;
      DrainsMore(log, acts[..n]);
      assert (log + acts)[..|log| + n] == log + acts[..n];
    }
  }

  lemma {:induction false} OthersMore(log: seq<Act>, acts: seq<Act>)
    ensures OthersOf(log + acts) == OthersOf(log) + OthersOf(acts)
    decreases |acts|
  {
    if acts == [] {
      assert log + acts == log;
    } else {
      var n := |acts| - 1;
      OthersMore(log, acts[..n]);
      assert (log + acts)[..|log| + n] == log + acts[..n];
    }
  }

  lemma ShowsOne(log: seq<Act>, a: Act)
    ensures Drains(log + [a]) == Drains(log) + (if a.Slept? then [a.now] else [])
    ensures OthersOf(log + [a]) == OthersOf(log) + (if a.Others? then [a.ops] else [])
  {
    assert (log + [a])[..|log|] == log;
  }

  lemma OneAct(cfg: Config, start: QueueState, log: seq<Act>, s: QueueState, a: Act)
    requires Explains(cfg, start, log, s) && Possible(cfg, s, a)
    ensures Explains(cfg, start, log + [a], AfterAct(cfg, s, a))
    ensures Drains(log + [a]) == Drains(log) + (if a.Slept? then [a.now] else [])
    ensures OthersOf(log + [a]) == OthersOf(log) + (if a.Others? then [a.ops] else [])
  {
    ExplainsOne(cfg, s, a);
    ExplainsMore(cfg, start, log, s, [a], AfterAct(cfg, s, a));
    ShowsOne(log, a);
  }

  lemma {:induction false} PassingDrainsNothing(acts: seq<Act>)
    requires forall k :: 0 <= k < |acts| ==> acts[k].PassedOn?
    ensures Drains(acts) == [] && OthersOf(acts) == []
  {
    if acts != [] {
      PassingDrainsNothing(acts[..|acts| - 1]);
    }
  }

  function Readings(rounds: seq<Round>): seq<Time> {
    seq(|rounds|, i requires 0 <= i < |rounds| => rounds[i].now)
  }

  function Asleep(rounds: seq<Round>): seq<seq<Op>> {
    seq(|rounds|, i requires 0 <= i < |rounds| => rounds[i].others)
  }

  lemma OneMoreReading(rounds: seq<Round>, k: nat)
    requires 0 < k <= |rounds|
    ensures Readings(rounds[..k]) == Readings(rounds[..k - 1]) + [rounds[k - 1].now]
    ensures Asleep(rounds[..k]) == Asleep(rounds[..k - 1]) + [rounds[k - 1].others]
  {
  }

  lemma NothingYet(cfg: Config, start: QueueState)
    ensures Contract([], map[]) && Explains(cfg, start, [], start) && Drains([]) == [] && OthersOf([]) == []
  {
  }

  /** What one turn does: it passes on what is due, sleeps with this timer while others run, receives
      requests if one woke it, and leaves these items waiting. */
  datatype Made = Made(
    now: Time, passed: seq<Act>, timer: Option<Time>, others: seq<Op>, more: seq<Act>, after: map<Item, Time>)

  function UpToSleep(m: Made): seq<Act> {
    m.passed + [Slept(m.now, m.timer)] + [Others(m.others)]
  }

  function LogOf(made: seq<Made>): seq<Act> {
    if made == [] then []
    else
      var m := made[|made| - 1];
      LogOf(made[..|made| - 1]) + UpToSleep(m) + m.more
  }

  function WaitingAfter(made: seq<Made>): map<Item, Time> {
    if made == [] then map[] else made[|made| - 1].after
  }

  /** The turn a round calls for, begun at this queue with these items waiting: never at a queue that
      is shut down; with the round's reading and the round's others; and with the channel emptied
      if a request is what ends the sleep, and left alone otherwise. */
  ghost predicate IsTurn(cfg: Config, s: QueueState, before: map<Item, Time>, round: Round, m: Made) {
    && !s.lanes.shuttingDown
    && m.now == round.now && m.others == round.others
    && Drained(m.passed, before, m.now) && IsAlarm(Later(before, m.now), m.timer)
    && var u := Replay(cfg, s, UpToSleep(m));
       (m.more, m.after) == if round.wake.Incoming? then
                              Handling(u.channel, round.clock, |u.channel|, Later(before, m.now))
                            else ([], Later(before, m.now))
  }

  /** Turn k is the one its round calls for. */
  ghost predicate TurnIsMade(cfg: Config, start: QueueState, rounds: seq<Round>, made: seq<Made>, k: nat)
    requires k < |made| <= |rounds|
  {
    IsTurn(cfg, Replay(cfg, start, LogOf(made[..k])), WaitingAfter(made[..k]), rounds[k], made[k])
  }

  ghost predicate TurnsAreMade(cfg: Config, start: QueueState, rounds: seq<Round>, made: seq<Made>) {
    |made| <= |rounds| && forall k :: 0 <= k < |made| ==> TurnIsMade(cfg, start, rounds, made, k)
  }

  lemma OneMoreTurn(cfg: Config, start: QueueState, rounds: seq<Round>, made: seq<Made>, m: Made)
    requires TurnsAreMade(cfg, start, rounds, made) && |made| < |rounds|
    requires IsTurn(cfg, Replay(cfg, start, LogOf(made)), WaitingAfter(made), rounds[|made|], m)
    ensures TurnsAreMade(cfg, start, rounds, made + [m])
    ensures LogOf(made + [m]) == LogOf(made) + UpToSleep(m) + m.more && WaitingAfter(made + [m]) == m.after
  {
    var longer := made + [m];
    assert longer[..|made|] == made;
    forall k | 0 <= k < |longer| ensures TurnIsMade(cfg, start, rounds, longer, k) {
      if k < |made| {
        assert TurnIsMade(cfg, start, rounds, made, k) && longer[..k] == made[..k];
      }
    }
  }

  lemma ReplayToSleep(cfg: Config, s: QueueState, passed: seq<Act>, now: Time, timer: Option<Time>, others: seq<Op>)
    ensures Replay(cfg, s, passed + [Slept(now, timer)] + [Others(others)])
         == AfterOthers(cfg, Replay(cfg, s, passed), others, {})
  {
    var slept := passed + [Slept(now, timer)];
    assert slept[..|passed|] == passed;
    assert (slept + [Others(others)])[..|slept|] == slept;
  }

  lemma ExplainsReplay(cfg: Config, start: QueueState, log: seq<Act>, s: QueueState)
    requires Explains(cfg, start, log, s)
    ensures Replay(cfg, start, log) == s
  {
  }

  lemma ThisIsTheTurn(cfg: Config, s: QueueState, slept: QueueState, before: map<Item, Time>, round: Round, m: Made)
    requires !s.lanes.shuttingDown && m.now == round.now && m.others == round.others
    requires Drained(m.passed, before, m.now) && IsAlarm(Later(before, m.now), m.timer)
    requires slept == AfterOthers(cfg, Replay(cfg, s, m.passed), m.others, {})
    requires (m.more, m.after) == if round.wake.Incoming? then
                                    Handling(slept.channel, round.clock, |slept.channel|, Later(before, m.now))
                                  else ([], Later(before, m.now))
    ensures IsTurn(cfg, s, before, round, m)
  {
    ReplayToSleep(cfg, s, m.passed, m.now, m.timer, m.others);
  }

  lemma {:induction false} HandlingIsNoSleep(channel: seq<Request>, clock: nat -> Time, k: nat, before: map<Item, Time>)
    requires k <= |channel|
    ensures var (acts, _) := Handling(channel, clock, k, before); Drains(acts) == [] && OthersOf(acts) == []
  {
    if k > 0 {
      HandlingIsNoSleep(channel, clock, k - 1, before);
      HandlesOneMore(channel, clock, k - 1, before);
      var (acts, _) := Handling(channel, clock, k - 1, before);
      var (x, t) := (channel[k - 1].item, channel[k - 1].readyAt);
      ShowsOne(acts, Received(x, t));
      ShowsOne(acts + [Received(x, t)], PassedOn(x, t, clock(k - 1)));
      assert acts + [Received(x, t)] + [PassedOn(x, t, clock(k - 1))]
          == acts + [Received(x, t), PassedOn(x, t, clock(k - 1))];
    }
  }

  lemma TurnIsOneSleep(cfg: Config, s: QueueState, before: map<Item, Time>, round: Round, m: Made)
    requires IsTurn(cfg, s, before, round, m)
    ensures Drains(m.passed) == [] && OthersOf(m.passed) == [] && Drains(m.more) == [] && OthersOf(m.more) == []
    ensures m.now == round.now && m.others == round.others
  {
    PassingDrainsNothing(m.passed);
    var u := Replay(cfg, s, UpToSleep(m));
    if round.wake.Incoming? {
      HandlingIsNoSleep(u.channel, round.clock, |u.channel|, Later(before, m.now));
    }
    hide Replay, Handling;
  }

  lemma TurnShows(log: seq<Act>, m: Made)
    requires Drains(m.passed) == [] && OthersOf(m.passed) == [] && Drains(m.more) == [] && OthersOf(m.more) == []
    ensures Drains(log + UpToSleep(m) + m.more) == Drains(log) + [m.now]
    ensures OthersOf(log + UpToSleep(m) + m.more) == OthersOf(log) + [m.others]
  {
    hide Drains, OthersOf;
    var slept, a, b := log + m.passed, Slept(m.now, m.timer), Others(m.others);
    assert log + UpToSleep(m) + m.more == slept + [a] + [b] + m.more;
    DrainsMore(log, m.passed);
    OthersMore(log, m.passed);
    ShowsOne(slept, a);
    ShowsOne(slept + [a], b);
    DrainsMore(slept + [a] + [b], m.more);
    OthersMore(slept + [a] + [b], m.more);
  }

  /** The log has, in order, each turn's reading and what the others did in it. */
  lemma {:induction false} TurnsShow(cfg: Config, start: QueueState, rounds: seq<Round>, made: seq<Made>, k: nat)
    requires TurnsAreMade(cfg, start, rounds, made) && k <= |made|
    ensures Drains(LogOf(made[..k])) == Readings(rounds[..k]) && OthersOf(LogOf(made[..k])) == Asleep(rounds[..k])
  {
    if k > 0 {
      TurnsShow(cfg, start, rounds, made, k - 1);
      assert TurnIsMade(cfg, start, rounds, made, k - 1);
      assert made[..k][..k - 1] == made[..k - 1];
      TurnIsOneSleep(cfg, Replay(cfg, start, LogOf(made[..k - 1])), WaitingAfter(made[..k - 1]), rounds[k - 1],
                     made[k - 1]);
      TurnShows(LogOf(made[..k - 1]), made[k - 1]);
      OneMoreReading(rounds, k);
    }
  }

  /** One turn of the loop's body. */
  method OneTurn(cfg: Config, delayed: Delayed, start: QueueState, log0: seq<Act>, s0: QueueState, round: Round)
    returns (log: seq<Act>, s: QueueState, ghost m: Made)
    requires delayed.Valid() && Contract(log0, delayed.View()) && Explains(cfg, start, log0, s0)
    requires !s0.lanes.shuttingDown
    modifies delayed, delayed.heap, delayed.heap.Nodes()
    ensures delayed.Valid() && Contract(log, delayed.View()) && Explains(cfg, start, log, s)
    ensures fresh(delayed.heap.Nodes() - old(delayed.heap.Nodes()))
    ensures IsTurn(cfg, s0, old(delayed.View()), round, m)
    ensures log == log0 + UpToSleep(m) + m.more && delayed.View() == m.after
    ensures round.wake.Incoming? ==> s.channel == []
  {
    hide Delayed.Valid;
    hide Contract;
    hide Explains;
    hide AfterOthers, Replay, IsTurn, Drained, IsAlarm, Handling;
    ghost var before := delayed.View();
    ghost var passed, timer;
    log, s, passed, timer := DrainAndSleep(cfg, delayed, start, log0, s0, round.now, round.others);
    ghost var slept, more := s, [];
    if round.wake.Incoming? {
      var acts, t := ReceiveAll(cfg, delayed, s, round.clock, log);
      ExplainsMore(cfg, start, log, s, acts, t);
      log, s, more := log + acts, t, acts;
    }
    m := Made(round.now, passed, timer, round.others, more, delayed.View());
    ThisIsTheTurn(cfg, s0, slept, before, round, m);
  }

  /** waitingLoop, for as many turns as there are rounds. The calls it makes on the queue are the
      acts of the log; what they do to it is what the queue's own methods are proved to do. Each
      turn is the one its round calls for, and there is none at a queue that is shut down. */
  method WaitingLoop(cfg: Config, start: QueueState, rounds: seq<Round>)
    returns (log: seq<Act>, s: QueueState, turns: nat, ghost waiting: map<Item, Time>, ghost made: seq<Made>)
    ensures Contract(log, waiting) && Explains(cfg, start, log, s)
    ensures turns <= |rounds| && Drains(log) == Readings(rounds[..turns]) && OthersOf(log) == Asleep(rounds[..turns])
    ensures turns < |rounds| ==> s.lanes.shuttingDown
    ensures turns == |rounds| > 0 && rounds[turns - 1].wake.Incoming? ==> s.channel == []
    ensures start.lanes.shuttingDown ==> turns == 0 && log == [] && s == start
    ensures |made| == turns && TurnsAreMade(cfg, start, rounds, made)
    ensures log == LogOf(made) && waiting == WaitingAfter(made)
  {
    hide Delayed.Valid;
    hide Contract;
    hide Explains;
    hide Drains, OthersOf, Replay, TurnsAreMade, IsTurn, LogOf, WaitingAfter, UpToSleep, Readings, Asleep;
    var delayed := new Delayed();
    log, s, turns, made := [], start, 0, [];
    NothingYet(cfg, start);
    NoTurnYet(cfg, start, rounds);
    while turns < |rounds|
      invariant turns <= |rounds| && |made| == turns
      invariant delayed.Valid() && Contract(log, delayed.View()) && Explains(cfg, start, log, s)
      invariant fresh(delayed) && fresh(delayed.heap) && fresh(delayed.heap.Nodes())
      invariant turns > 0 && rounds[turns - 1].wake.Incoming? ==> s.channel == []
      invariant TurnsAreMade(cfg, start, rounds, made)
      invariant log == LogOf(made) && delayed.View() == WaitingAfter(made)
      invariant start.lanes.shuttingDown ==> turns == 0 && s == start
    {
      if s.lanes.shuttingDown {
        break;
      }
      ExplainsReplay(cfg, start, log, s);
      ghost var m;
      log, s, m := OneTurn(cfg, delayed, start, log, s, rounds[turns]);
      OneMoreTurn(cfg, start, rounds, made, m);
      made, turns := made + [m], turns + 1;
      if rounds[turns - 1].wake.Stop? && s.lanes.shuttingDown {
        break;
      }
    }
    waiting := delayed.View();
    TurnsShow(cfg, start, rounds, made, |made|);
    assert made[..|made|] == made;
  }

  lemma NoTurnYet(cfg: Config, start: QueueState, rounds: seq<Round>)
    ensures TurnsAreMade(cfg, start, rounds, []) && LogOf([]) == [] && WaitingAfter([]) == map[]
  {
  }

  /** The first part of a turn: pass on what is ready, set the timer, sleep while others run. */
  method DrainAndSleep(cfg: Config, delayed: Delayed, start: QueueState, log0: seq<Act>, s0: QueueState,
                       now: Time, others: seq<Op>)
    returns (log: seq<Act>, s: QueueState, ghost acts: seq<Act>, ghost timer: Option<Time>)
    requires delayed.Valid() && Contract(log0, delayed.View()) && Explains(cfg, start, log0, s0)
    modifies delayed, delayed.heap, delayed.heap.Nodes()`index
    ensures delayed.Valid() && Contract(log, delayed.View()) && Explains(cfg, start, log, s)
    ensures delayed.View() == Later(old(delayed.View()), now) && IsAlarm(delayed.View(), timer)
    ensures delayed.heap.Nodes() <= old(delayed.heap.Nodes())
    ensures log == log0 + acts + [Slept(now, timer)] + [Others(others)] && Drained(acts, old(delayed.View()), now)
    ensures s == AfterOthers(cfg, Replay(cfg, s0, acts), others, {})
  {
    hide Delayed.Valid;
    hide Contract;
    hide Explains;
    ghost var before := delayed.View();
    var passed := DrainReady(delayed, now);
    acts := passed;
    DrainedKeepsContract(log0, before, acts, now);
    PassingExplains(cfg, s0, acts);
    log, s := log0 + passed, Replay(cfg, s0, passed);
    ExplainsMore(cfg, start, log0, s0, acts, s);

    delayed.PeekShowsTheEarliest();
    var alarm := if delayed.heap.Len() > 0 then Some(delayed.heap.Peek().readyAt) else None;
    timer := alarm;
    QuietAct(cfg, start, log, s, Slept(now, alarm), delayed.View());
    log := log + [Slept(now, alarm)];
    QuietAct(cfg, start, log, s, Others(others), delayed.View());
    log, s := log + [Others(others)], AfterOthers(cfg, s, others, {});
  }

  lemma QuietAct(cfg: Config, start: QueueState, log: seq<Act>, s: QueueState, a: Act, waiting: map<Item, Time>)
    requires Contract(log, waiting) && Explains(cfg, start, log, s)
    requires (a.Slept? || a.Others?) && Possible(cfg, s, a)
    requires a.Slept? ==> IsAlarm(waiting, a.timer) && forall x :: x in waiting ==> waiting[x] > a.now
    ensures Contract(log + [a], waiting) && Explains(cfg, start, log + [a], AfterAct(cfg, s, a))
    ensures Drains(log + [a]) == Drains(log) + (if a.Slept? then [a.now] else [])
    ensures OthersOf(log + [a]) == OthersOf(log) + (if a.Others? then [a.ops] else [])
  {
    Quiet(log, waiting, a);
    OneAct(cfg, start, log, s, a);
  }
}
