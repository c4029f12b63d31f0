/** Conservation laws of the queue over whole runs: what is accepted is delivered, in lane order,
    and shutting down bounds what is left to do. */
module Accounting {
  import opened Lanes
  import opened Monitor

  // ---------- counting along a run ----------

  /** The sum of f over the steps of a run. */
  ghost function Total(p: Policy, s: State, es: seq<Event>, f: (State, Event) -> nat): nat
    requires IsRun(p, s, es)
    decreases |es|
  {
    if es == [] then 0 else f(s, es[0]) + Total(p, Apply(p, s, es[0]), es[1..], f)
  }

  /** If every step turns f's gains into g's losses and a change of the stock, so does a run. */
  lemma {:induction false} Balance(p: Policy, s: State, es: seq<Event>, inv: State -> bool,
                                   stock: State -> nat, f: (State, Event) -> nat, g: (State, Event) -> nat)
    requires inv(s) && IsRun(p, s, es)
    requires forall t, e :: inv(t) && Enabled(p, t, e) ==> inv(Apply(p, t, e))
    requires forall t, e :: inv(t) && Enabled(p, t, e) ==>
               stock(t) + f(t, e) == stock(Apply(p, t, e)) + g(t, e)
    ensures stock(s) + Total(p, s, es, f) == stock(Final(p, s, es)) + Total(p, s, es, g)
    decreases |es|
  {
    if es != [] {
      var t := Apply(p, s, es[0]);
      assert stock(s) + f(s, es[0]) == stock(t) + g(s, es[0]);
      Balance(p, t, es[1..], inv, stock, f, g);
    }
  }

  predicate Delivers(s: State, e: Event) {
    e.Get? && IsWorker(s, e.c) && CanTake(s, e.c)
  }

  function DeliveredItem(s: State, e: Event): Item
    requires Delivers(s, e)
  {
    Head(s.q, s.roles[e.c] == FreshGetter)
  }

  function Accepted(): (State, Event) -> nat {
    (s: State, e: Event) => One(e.Add? && Accepts(s.q, e.item))
  }

  function Delivered(): (State, Event) -> nat {
    (s: State, e: Event) => One(Delivers(s, e))
  }

  function Finished(): (State, Event) -> nat {
    (s: State, e: Event) => One(e.Done?)
  }

  function AcceptedOf(x: Item): (State, Event) -> nat {
    (s: State, e: Event) => One(e.Add? && e.item == x && Accepts(s.q, x))
  }

  function DeliveredOf(x: Item): (State, Event) -> nat {
    (s: State, e: Event) => One(Delivers(s, e) && DeliveredItem(s, e) == x)
  }

  function DeliveredTo(c: Id): (State, Event) -> nat {
    (s: State, e: Event) => One(Delivers(s, e) && e.c == c)
  }

  function FinishedBy(c: Id): (State, Event) -> nat {
    (s: State, e: Event) => One(e.Done? && e.c == c)
  }

  // ---------- conservation ----------

  lemma DeliveryIsDirty(s: State, e: Event)
    requires Safe(s) && Delivers(s, e)
    ensures DeliveredItem(s, e) in s.q.dirty && DeliveredItem(s, e) !in s.q.processing
  {
  }

  lemma SafeIsKept(p: Policy)
    ensures forall t, e :: Safe(t) && Enabled(p, t, e) ==> Safe(Apply(p, t, e))
  {
    forall t, e | Safe(t) && Enabled(p, t, e) ensures Safe(Apply(p, t, e)) {
      StepKeepsSafe(p, t, e);
    }
  }

  lemma StepConservesWork(p: Policy, s: State, e: Event, x: Item)
    requires Safe(s) && Enabled(p, s, e)
    ensures One(x in s.q.dirty) + AcceptedOf(x)(s, e)
         == One(x in Apply(p, s, e).q.dirty) + DeliveredOf(x)(s, e)
  {
  }

  lemma StepConservesProcessing(p: Policy, s: State, e: Event)
    requires Safe(s) && Enabled(p, s, e)
    ensures |s.q.processing| + Delivered()(s, e) == |Apply(p, s, e).q.processing| + Finished()(s, e)
  {
    var t := Apply(p, s, e);
    if Delivers(s, e) {
      DeliveryIsDirty(s, e);
      assert t.q.processing == s.q.processing + {DeliveredItem(s, e)};
    } else if e.Done? {
      assert Holds(s, e.c, s.pcs[e.c].item);
      assert t.q.processing == s.q.processing - {s.pcs[e.c].item};
    } else {
      assert t.q.processing == s.q.processing;
    }
  }

  /** No accepted work is lost and none is delivered twice: over any run, each acceptance of an
      item is answered by exactly one delivery, or is the one still marked dirty. */
  lemma WorkIsConserved(p: Policy, s: State, es: seq<Event>, x: Item)
    requires Safe(s) && IsRun(p, s, es)
    ensures One(x in s.q.dirty) + Total(p, s, es, AcceptedOf(x))
         == One(x in Final(p, s, es).q.dirty) + Total(p, s, es, DeliveredOf(x))
  {
    SafeIsKept(p);
    var stock := (t: State) => One(x in t.q.dirty);
    forall t, e | Safe(t) && Enabled(p, t, e)
      ensures stock(t) + AcceptedOf(x)(t, e) == stock(Apply(p, t, e)) + DeliveredOf(x)(t, e)
    {
      StepConservesWork(p, t, e, x);
    }
    Balance(p, s, es, t => Safe(t), stock, AcceptedOf(x), DeliveredOf(x));
  }

  /** The same for all items together: adds minus gets is |dirty|. */
  lemma DepthIsConserved(p: Policy, s: State, es: seq<Event>)
    requires Safe(s) && IsRun(p, s, es)
    ensures |s.q.dirty| + Total(p, s, es, Accepted()) == |Final(p, s, es).q.dirty| + Total(p, s, es, Delivered())
  {
    SafeIsKept(p);
    var stock := (t: State) => |t.q.dirty|;
    forall t, e | Safe(t) && Enabled(p, t, e)
      ensures stock(t) + Accepted()(t, e) == stock(Apply(p, t, e)) + Delivered()(t, e)
    {
      if Delivers(t, e) {
        DeliveryIsDirty(t, e);
      }
    }
    Balance(p, s, es, t => Safe(t), stock, Accepted(), Delivered());
  }

  lemma ProcessingIsConserved(p: Policy, s: State, es: seq<Event>)
    requires Safe(s) && IsRun(p, s, es)
    ensures |s.q.processing| + Total(p, s, es, Delivered())
         == |Final(p, s, es).q.processing| + Total(p, s, es, Finished())
  {
    SafeIsKept(p);
    var stock := (t: State) => |t.q.processing|;
    forall t, e | Safe(t) && Enabled(p, t, e)
      ensures stock(t) + Delivered()(t, e) == stock(Apply(p, t, e)) + Finished()(t, e)
    {
      StepConservesProcessing(p, t, e);
    }
    Balance(p, s, es, t => Safe(t), stock, Delivered(), Finished());
  }

  lemma StepPairsGetWithDone(p: Policy, s: State, e: Event, c: Id)
    requires Safe(s) && Enabled(p, s, e) && c in s.pcs
    ensures var t := Apply(p, s, e);
            && c in t.pcs
            && One(s.pcs[c].Holding?) + DeliveredTo(c)(s, e) == One(t.pcs[c].Holding?) + FinishedBy(c)(s, e)
  {
  }

  /** Every caller finishes what it gets, one Done for one Get, in every interleaving. */
  lemma {:induction false} GetsPairWithDones(p: Policy, s: State, es: seq<Event>, c: Id)
    requires Safe(s) && IsRun(p, s, es) && c in s.pcs
    ensures c in Final(p, s, es).pcs
    ensures One(s.pcs[c].Holding?) + Total(p, s, es, DeliveredTo(c))
         == One(Final(p, s, es).pcs[c].Holding?) + Total(p, s, es, FinishedBy(c))
    decreases |es|
  {
    if es != [] {
      StepKeepsSafe(p, s, es[0]);
      StepPairsGetWithDone(p, s, es[0], c);
      GetsPairWithDones(p, Apply(p, s, es[0]), es[1..], c);
    }
  }

  // ---------- shutdown ----------

  /** After shutdown no step takes anything in: `add` leaves the queue untouched. */
  lemma {:induction false} NothingIsAcceptedAfterShutDown(p: Policy, s: State, es: seq<Event>)
    requires s.q.shuttingDown && IsRun(p, s, es)
    ensures Final(p, s, es).q.shuttingDown && Total(p, s, es, Accepted()) == 0
    decreases |es|
  {
    if es != [] {
      var e := es[0];
      assert !(e.Add? && Accepts(s.q, e.item));
      assert Accepted()(s, e) == One(e.Add? && Accepts(s.q, e.item));
      NothingIsAcceptedAfterShutDown(p, Apply(p, s, es[0]), es[1..]);
    }
  }

  /** After shutdown the work left is exactly what was dirty: every delivery uses one up, so
      2 * |dirty| + |processing| pays for every delivery and every Done still to come. */
  lemma ShutDownBoundsTheWork(p: Policy, s: State, es: seq<Event>)
    requires Safe(s) && s.q.shuttingDown && IsRun(p, s, es)
    ensures Total(p, s, es, Delivered()) + |Final(p, s, es).q.dirty| == |s.q.dirty|
    ensures var t := Final(p, s, es);
            Total(p, s, es, Delivered()) + Total(p, s, es, Finished()) + 2 * |t.q.dirty| + |t.q.processing|
            == 2 * |s.q.dirty| + |s.q.processing|
  {
    NothingIsAcceptedAfterShutDown(p, s, es);
    DepthIsConserved(p, s, es);
    ProcessingIsConserved(p, s, es);
  }

  // ---------- lane order ----------

  function StepAppends(s: State, e: Event, lane: Lane): seq<Item> {
    match e
    case Add(x, l, _) => if AddSignals(s.q, x) && l == lane then [x] else []
    case Done(c, l, _) =>
      if c in s.pcs && s.pcs[c].Holding? && s.pcs[c].item in s.q.dirty && l == lane then [s.pcs[c].item] else []
    case _ => []
  }

  function StepDelivers(s: State, e: Event, lane: Lane): seq<Item> {
    if Delivers(s, e) && TakenFrom(s.q) == lane then [DeliveredItem(s, e)] else []
  }

  ghost function Appended(p: Policy, s: State, es: seq<Event>, lane: Lane): seq<Item>
    requires IsRun(p, s, es)
    decreases |es|
  {
    if es == [] then []
    else StepAppends(s, es[0], lane) + Appended(p, Apply(p, s, es[0]), es[1..], lane)
  }

  ghost function DeliveredFrom(p: Policy, s: State, es: seq<Event>, lane: Lane): seq<Item>
    requires IsRun(p, s, es)
    decreases |es|
  {
    if es == [] then []
    else StepDelivers(s, es[0], lane) + DeliveredFrom(p, Apply(p, s, es[0]), es[1..], lane)
  }

  lemma StepKeepsOrder(p: Policy, s: State, e: Event, lane: Lane)
    requires Enabled(p, s, e)
    ensures s.q.Contents(lane) + StepAppends(s, e, lane)
         == StepDelivers(s, e, lane) + Apply(p, s, e).q.Contents(lane)
  {
  }

  lemma Splice(now: seq<Item>, step: seq<Item>, rest: seq<Item>,
               out: seq<Item>, next: seq<Item>, later: seq<Item>, last: seq<Item>)
    requires now + step == out + next && next + rest == later + last
    ensures now + (step + rest) == (out + later) + last
  {
    assert now + (step + rest) == (now + step) + rest;
    assert (out + next) + rest == out + (next + rest);
    assert out + (later + last) == (out + later) + last;
  }

  /** Each lane is first in, first out: what was delivered from it, followed by what it still
      holds, is what it held at first followed by what was appended, in order. */
  lemma {:induction false} LanesAreFifo(p: Policy, s: State, es: seq<Event>, lane: Lane)
    requires IsRun(p, s, es)
    ensures s.q.Contents(lane) + Appended(p, s, es, lane)
         == DeliveredFrom(p, s, es, lane) + Final(p, s, es).q.Contents(lane)
    decreases |es|
  {
    if es != [] {
      var e := es[0];
      var t := Apply(p, s, e);
      StepKeepsOrder(p, s, e, lane);
      LanesAreFifo(p, t, es[1..], lane);
      Splice(s.q.Contents(lane), StepAppends(s, e, lane), Appended(p, t, es[1..], lane),
             StepDelivers(s, e, lane), t.q.Contents(lane),
             DeliveredFrom(p, t, es[1..], lane), Final(p, t, es[1..]).q.Contents(lane));
    }
  }

  /** A Get caller takes a staled item exactly when the fresh lane is empty, a GetFresh caller never,
      and the lane not taken from stays as it was. */
  lemma StaledOnlyWithoutFresh(p: Policy, s: State, e: Event)
    requires Safe(s) && Enabled(p, s, e) && Delivers(s, e)
    ensures DeliveredItem(s, e) in s.q.queueStaled <==> s.q.queueFresh == []
    ensures DeliveredItem(s, e) in s.q.queueStaled ==>
      s.roles[e.c] == Getter && Apply(p, s, e).q.queueFresh == s.q.queueFresh
    ensures DeliveredItem(s, e) in s.q.queueFresh ==> Apply(p, s, e).q.queueStaled == s.q.queueStaled
    ensures Holds(Apply(p, s, e), e.c, DeliveredItem(s, e))
  {
  }

  // ---------- what is left when the workers are gone ----------

  ghost predicate AllWorkersExited(s: State) {
    forall c :: IsWorker(s, c) ==> Is(s, c, Exited)
  }

  ghost predicate SomebodyWorksOn(s: State) {
    s.q.Len() > 0 ==> exists c :: IsWorker(s, c) && !Is(s, c, Exited)
  }

  lemma StepKeepsSomebody(p: Policy, s: State, e: Event, w: Id)
    requires Safe(s) && Enabled(p, s, e) && IsWorker(s, w) && SomebodyWorksOn(s)
    requires forall c :: c in s.roles ==> s.roles[c] != FreshGetter
    ensures SomebodyWorksOn(Apply(p, s, e))
  {
    var t := Apply(p, s, e);
    if t.q.Len() > 0 {
      match e {
        case Get(c) => assert IsWorker(t, c) && !Is(t, c, Exited);
        case Done(c, _, _) => assert IsWorker(t, c) && !Is(t, c, Exited);
        case Add(_, _, _) =>
          if s.q.shuttingDown {
            assert t == s;
          } else {
            assert IsWorker(t, w) && !Is(t, w, Exited);
          }
        case _ =>
          var c :| IsWorker(s, c) && !Is(s, c, Exited);
          assert IsWorker(t, c) && !Is(t, c, Exited);
      }
    }
  }

  lemma SomebodyAlwaysWorks(p: Policy, roles: map<Id, Role>, s: State, w: Id)
    requires Reachable(p, roles, s) && IsWorker(Init(roles), w)
    requires forall c :: c in roles ==> roles[c] != FreshGetter
    ensures SomebodyWorksOn(s)
  {
    var es :| IsRun(p, Init(roles), es) && Final(p, Init(roles), es) == s;
    var inv := t => Safe(t) && t.roles == roles && SomebodyWorksOn(t);
    forall t, e | inv(t) && Enabled(p, t, e) ensures inv(Apply(p, t, e)) {
      StepKeepsSafe(p, t, e);
      StepKeepsSomebody(p, t, e, w);
    }
    Induct(p, inv, Init(roles), es);
  }

  lemma EmptyLanesWithoutHolders(s: State)
    requires Safe(s) && s.q.Len() == 0 && AllWorkersExited(s)
    ensures s.q.dirty == {} && s.q.processing == {}
  {
    forall x ensures x !in s.q.processing {
      if x in s.q.processing {
        var c :| Holds(s, c, x);
        assert IsWorker(s, c);
      }
    }
    assert forall x :: !s.q.IsQueued(x);
  }

  /** Workers that all use Get leave only when everything accepted is finished. */
  lemma GetOnlyWorkersLeaveNothing(p: Policy, roles: map<Id, Role>, s: State, w: Id)
    requires Reachable(p, roles, s) && IsWorker(Init(roles), w)
    requires forall c :: c in roles ==> roles[c] != FreshGetter
    ensures AllWorkersExited(s) ==> s.q.dirty == {} && s.q.processing == {}
  {
    ReachableIsSafe(p, roles, s);
    SomebodyAlwaysWorks(p, roles, s, w);
    if AllWorkersExited(s) {
      EmptyLanesWithoutHolders(s);
    }
  }
}
