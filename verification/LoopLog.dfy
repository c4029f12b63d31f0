/** What the waiting loop does, as a log, and what such a log has to satisfy. */
module LoopLog {
  import opened Lanes
  import opened Protocol
  import opened QueueSpec
  import opened DelayedItems

  datatype Act =
    | Received(item: Item, readyAt: Time)              // taken from waitingForAddCh
    | PassedOn(item: Item, readyAt: Time, now: Time)   // q.add, for a request due at readyAt
    | Slept(now: Time, timer: Option<Time>)            // into the select, the drain at `now` being over
    | Others(ops: seq<Op>)                             // what everybody else did meanwhile

  // ---------- the log accounts for the queue ----------

  predicate Possible(cfg: Config, s: QueueState, a: Act) {
    match a
    case Received(x, t) => s.channel != [] && s.channel[0] == Request(x, t)
    case _ => true
  }

  function AfterAct(cfg: Config, s: QueueState, a: Act): QueueState {
    match a
    case Received(_, _) => if s.channel == [] then s else s.(channel := s.channel[1..])
    case PassedOn(x, _, _) => Added(s, x, LaneOf(cfg, s, x))
    case Slept(_, _) => s
    case Others(ops) => AfterOthers(cfg, s, ops, {})
  }

  function Replay(cfg: Config, s: QueueState, log: seq<Act>): QueueState
    decreases |log|
  {
    if log == [] then s
    else AfterAct(cfg, Replay(cfg, s, log[..|log| - 1]), log[|log| - 1])
  }

  ghost predicate Explains(cfg: Config, s: QueueState, log: seq<Act>, t: QueueState) {
    && Replay(cfg, s, log) == t
    && forall i :: 0 <= i < |log| ==> Possible(cfg, Replay(cfg, s, log[..i]), log[i])
  }

  lemma {:induction false} ReplayMore(cfg: Config, s: QueueState, log: seq<Act>, acts: seq<Act>)
    ensures Replay(cfg, s, log + acts) == Replay(cfg, Replay(cfg, s, log), acts)
    decreases |acts|
  {
    if acts == [] {
      assert log + acts == log;
    } else {
      var n := |acts| - 1;
      ReplayMore(cfg, s, log, acts[..n]);
      assert (log + acts)[..|log| + n] == log + acts[..n];
    }
  }

  /** Explanations compose. */
  lemma ExplainsMore(cfg: Config, s: QueueState, log: seq<Act>, t: QueueState, acts: seq<Act>, u: QueueState)
    requires Explains(cfg, s, log, t) && Explains(cfg, t, acts, u)
    ensures Explains(cfg, s, log + acts, u)
  {
    var longer := log + acts;
    ReplayMore(cfg, s, log, acts);
    forall i | 0 <= i < |longer| ensures Possible(cfg, Replay(cfg, s, longer[..i]), longer[i]) {
      if i < |log| {
        assert longer[..i] == log[..i];
      } else {
        assert longer[..i] == log + acts[..i - |log|];
        ReplayMore(cfg, s, log, acts[..i - |log|]);
      }
    }
  }

  lemma ExplainsOne(cfg: Config, s: QueueState, a: Act)
    requires Possible(cfg, s, a)
    ensures Explains(cfg, s, [a], AfterAct(cfg, s, a))
  {
  }

  // ---------- the contract of delayed adds ----------

  /** Every q.add was asked for by a request received before, whose time had come. */
  ghost predicate Justified(log: seq<Act>) {
    forall j :: 0 <= j < |log| && log[j].PassedOn? ==>
      log[j].readyAt <= log[j].now && Received(log[j].item, log[j].readyAt) in log[..j]
  }

  ghost predicate PassedSince(log: seq<Act>, i: nat, x: Item) {
    exists j :: i < j < |log| && log[j].PassedOn? && log[j].item == x
  }

  /** Whenever the loop goes to sleep, every request received so far that was due at the reading
      it drained by has been passed on since it was received. */
  ghost predicate Prompt(log: seq<Act>) {
    forall k, i :: 0 <= i < k < |log| && log[k].Slept? && log[i].Received? && log[i].readyAt <= log[k].now ==>
      PassedSince(log[..k], i, log[i].item)
  }

  /** The timer set for a sleep never overshoots a request still unanswered, and is set only for
      a time some request asked for. */
  ghost predicate Alarmed(log: seq<Act>) {
    && (forall k, i :: 0 <= i < k < |log| && log[k].Slept? && log[i].Received? ==>
          PassedSince(log[..k], i, log[i].item) || (log[k].timer.Some? && log[k].timer.value <= log[i].readyAt))
    && (forall k :: 0 <= k < |log| && log[k].Slept? && log[k].timer.Some? ==>
          exists x :: Received(x, log[k].timer.value) in log[..k])
  }

  /** The timer for these delayed items: none, or the earliest of their times. */
  ghost predicate IsAlarm(waiting: map<Item, Time>, timer: Option<Time>) {
    match timer
    case None => waiting == map[]
    case Some(t) => (exists x :: x in waiting && waiting[x] == t) && forall x :: x in waiting ==> t <= waiting[x]
  }

  function Receptions(log: seq<Act>, x: Item): nat {
    if log == [] then 0
    else Receptions(log[..|log| - 1], x) + One(log[|log| - 1].Received? && log[|log| - 1].item == x)
  }

  function Passes(log: seq<Act>, x: Item): nat {
    if log == [] then 0
    else Passes(log[..|log| - 1], x) + One(log[|log| - 1].PassedOn? && log[|log| - 1].item == x)
  }

  /** What ties the delayed items to the log: each waits since a request received for it, none is
      passed on oftener than it was asked for, and a request not yet answered is waiting, no later
      than it asked for. */
  ghost predicate Outstanding(log: seq<Act>, waiting: map<Item, Time>) {
    && (forall x :: x in waiting ==> Received(x, waiting[x]) in log)
    && (forall x :: Passes(log, x) + One(x in waiting) <= Receptions(log, x))
    && (forall i :: 0 <= i < |log| && log[i].Received? ==>
          PassedSince(log, i, log[i].item) || (log[i].item in waiting && waiting[log[i].item] <= log[i].readyAt))
  }

  ghost predicate Contract(log: seq<Act>, waiting: map<Item, Time>) {
    Justified(log) && Prompt(log) && Alarmed(log) && Outstanding(log, waiting)
  }

  lemma SinceStays(log: seq<Act>, a: Act, i: nat, x: Item)
    requires PassedSince(log, i, x)
    ensures PassedSince(log + [a], i, x)
  {
    var j :| i < j < |log| && log[j].PassedOn? && log[j].item == x;
    assert (log + [a])[j] == log[j];
  }

  lemma CountsOneMore(log: seq<Act>, a: Act, x: Item)
    ensures Receptions(log + [a], x) == Receptions(log, x) + One(a.Received? && a.item == x)
    ensures Passes(log + [a], x) == Passes(log, x) + One(a.PassedOn? && a.item == x)
  {
  }

  /** Going to sleep is right with respect to every request received before. */
  ghost predicate MaySleep(log: seq<Act>, a: Act)
    requires a.Slept?
  {
    && (forall i :: 0 <= i < |log| && log[i].Received? ==>
          PassedSince(log, i, log[i].item)
          || (log[i].readyAt > a.now && a.timer.Some? && a.timer.value <= log[i].readyAt))
    && (a.timer.Some? ==> exists x :: Received(x, a.timer.value) in log)
  }

  /** These predicates look back only, so one more act has to be checked alone. */
  lemma LookingBack(log: seq<Act>, a: Act)
    requires Justified(log) && Prompt(log) && Alarmed(log)
    requires a.PassedOn? ==> a.readyAt <= a.now && Received(a.item, a.readyAt) in log
    requires a.Slept? ==> MaySleep(log, a)
    ensures Justified(log + [a]) && Prompt(log + [a]) && Alarmed(log + [a])
  {
    var longer := log + [a];
    forall k | 0 <= k <= |log| ensures longer[..k] == log[..k] {
    }
    assert log[..|log|] == log;
  }

  lemma ReceiveLate(log: seq<Act>, waiting: map<Item, Time>, x: Item, t: Time)
    requires Contract(log, waiting)
    ensures Contract(log + [Received(x, t)], Earliest(waiting, x, t))
  {
    var a := Received(x, t);
    var longer, after := log + [a], Earliest(waiting, x, t);
    LookingBack(log, a);
    forall y | y in after ensures Received(y, after[y]) in longer {
      assert longer[|log|] == a;
    }
    forall y ensures Passes(longer, y) + One(y in after) <= Receptions(longer, y) {
      CountsOneMore(log, a, y);
    }
    forall i | 0 <= i < |longer| && longer[i].Received?
      ensures PassedSince(longer, i, longer[i].item)
           || (longer[i].item in after && after[longer[i].item] <= longer[i].readyAt)
    {
      if i < |log| && PassedSince(log, i, log[i].item) {
        SinceStays(log, a, i, log[i].item);
      }
    }
  }

  lemma PassOn(log: seq<Act>, waiting: map<Item, Time>, x: Item, t: Time, now: Time)
    requires Contract(log, waiting) && x in waiting && t == waiting[x] <= now
    ensures Contract(log + [PassedOn(x, t, now)], waiting - {x})
  {
    var a := PassedOn(x, t, now);
    var longer, after := log + [a], waiting - {x};
    LookingBack(log, a);
    forall y | y in after ensures Received(y, after[y]) in longer {
      assert Received(y, waiting[y]) in log;
    }
    forall y ensures Passes(longer, y) + One(y in after) <= Receptions(longer, y) {
      CountsOneMore(log, a, y);
    }
    forall i | 0 <= i < |longer| && longer[i].Received?
      ensures PassedSince(longer, i, longer[i].item)
           || (longer[i].item in after && after[longer[i].item] <= longer[i].readyAt)
    {
      assert longer[i] == log[i];
      if log[i].item == x {
        assert longer[|log|].PassedOn? && longer[|log|].item == x;
      } else if PassedSince(log, i, log[i].item) {
        SinceStays(log, a, i, log[i].item);
      }
    }
  }

  /** A request that is due already is passed on at once; an entry waiting for the same item
      stays. */
  lemma ReceiveDue(log: seq<Act>, waiting: map<Item, Time>, x: Item, t: Time, now: Time)
    requires Contract(log, waiting) && t <= now
    ensures Contract(log + [Received(x, t)] + [PassedOn(x, t, now)], waiting)
  {
    var a, b := Received(x, t), PassedOn(x, t, now);
    var mid, longer := log + [a], log + [a] + [b];
    LookingBack(log, a);
    assert mid[|log|] == a;
    LookingBack(mid, b);
    forall y | y in waiting ensures Received(y, waiting[y]) in longer {
      assert Received(y, waiting[y]) in log;
    }
    forall y ensures Passes(longer, y) + One(y in waiting) <= Receptions(longer, y) {
      CountsOneMore(log, a, y);
      CountsOneMore(mid, b, y);
    }
    forall i | 0 <= i < |longer| && longer[i].Received?
      ensures PassedSince(longer, i, longer[i].item)
           || (longer[i].item in waiting && waiting[longer[i].item] <= longer[i].readyAt)
    {
      assert longer[i] == mid[i];
      if i == |log| {
        assert longer[|mid|] == b;
      } else if PassedSince(log, i, log[i].item) {
        SinceStays(log, a, i, log[i].item);
        SinceStays(mid, b, i, log[i].item);
      }
    }
  }

  /** Going to sleep, or watching others, when nothing that waits is due. */
  lemma Quiet(log: seq<Act>, waiting: map<Item, Time>, a: Act)
    requires Contract(log, waiting) && (a.Slept? || a.Others?)
    requires a.Slept? ==> IsAlarm(waiting, a.timer) && forall x :: x in waiting ==> waiting[x] > a.now
    ensures Contract(log + [a], waiting)
  {
    var longer := log + [a];
    if a.Slept? && a.timer.Some? {
      var x :| x in waiting && waiting[x] == a.timer.value;
      assert Received(x, a.timer.value) in log;
    }
    LookingBack(log, a);
    forall y | y in waiting ensures Received(y, waiting[y]) in longer {
      assert Received(y, waiting[y]) in log;
    }
    forall y ensures Passes(longer, y) + One(y in waiting) <= Receptions(longer, y) {
      CountsOneMore(log, a, y);
    }
    forall i | 0 <= i < |longer| && longer[i].Received?
      ensures PassedSince(longer, i, longer[i].item)
           || (longer[i].item in waiting && waiting[longer[i].item] <= longer[i].readyAt)
    {
      assert longer[i] == log[i];
      if PassedSince(log, i, log[i].item) {
        SinceStays(log, a, i, log[i].item);
      }
    }
  }
}
