/** The two retry counters, the lane Done picks, and the answer each failure gets. */
module Retries {
  import opened Lanes
  import M = Monitor
  import opened Protocol

  /** x's holder is inside AddRateLimited or Forget, between the updates of the two counters. */
  ghost predicate Between(s: Sys, x: Item) {
    exists c :: M.Holds(s.m, c, x) && c in s.phases && (s.phases[c].Counted? || s.phases[c].Forgetting?)
  }

  ghost predicate Linked(s: Sys) {
    && s.phases.Keys == s.m.pcs.Keys
    && forall c :: c in s.phases ==> (s.m.pcs[c].Holding? <==> s.phases[c] != Outside)
  }

  ghost predicate CountersAgree(s: Sys) {
    forall x :: !Between(s, x) ==> Count(s.failures, x) == Count(s.limiter, x)
  }

  /** What a worker in this phase knows about the counts of the item it holds. */
  predicate Knows(cfg: Config, phase: Phase, failures: nat, limiter: nat) {
    match phase
    case Counted => failures == limiter + 1
    case Forgetting(_) => failures == 0
    case Delaying(d, again) => if again then d > 0 && limiter == 0 else limiter >= 1 && d == DelayFor(cfg, limiter)
    case Admitted(d, again) => if again then d > 0 && limiter == 0 else limiter >= 1 && d == DelayFor(cfg, limiter)
    case Adding(lane, again) => lane == LaneFor(cfg, failures) && (again ==> limiter == 0)
    case Readding => limiter == 0
    case _ => true
  }

  ghost predicate HoldersKnow(cfg: Config, s: Sys) {
    forall c, x :: M.Holds(s.m, c, x) && c in s.phases ==>
      Knows(cfg, s.phases[c], Count(s.failures, x), Count(s.limiter, x))
  }

  ghost predicate Local(cfg: Config, s: Sys) {
    Linked(s) && CountersAgree(s) && HoldersKnow(cfg, s)
  }

  ghost predicate Inv(cfg: Config, s: Sys) {
    M.Safe(s.m) && Local(cfg, s)
  }

  /** A counter update of another item's holder goes on where the holder and its phase do. */
  lemma BetweenIsKept(s: Sys, t: Sys, x: Item)
    requires forall c :: M.Holds(s.m, c, x) && c in s.phases && (s.phases[c].Counted? || s.phases[c].Forgetting?) ==>
               M.Holds(t.m, c, x) && c in t.phases && t.phases[c] == s.phases[c]
    ensures Between(s, x) ==> Between(t, x)
  {
  }

  // ---------- steps at the monitor ----------

  lemma OutsidersKeepHolders(p: M.Policy, s: M.State, e: M.Event)
    requires M.Safe(s) && M.Enabled(p, s, e) && !e.Get? && !e.Done?
    ensures var t := M.Apply(p, s, e);
            && t.pcs.Keys == s.pcs.Keys
            && (forall c, x :: M.Holds(t, c, x) <==> M.Holds(s, c, x))
            && (forall c :: c in s.pcs ==> (t.pcs[c].Holding? <==> s.pcs[c].Holding?))
  {
  }

  lemma GetChangesOneHolder(p: M.Policy, s: M.State, c: Id)
    requires M.Safe(s) && M.Enabled(p, s, M.Get(c))
    ensures var t := M.Apply(p, s, M.Get(c));
            && t.pcs.Keys == s.pcs.Keys && !s.pcs[c].Holding?
            && (forall b :: b in s.pcs && b != c ==> t.pcs[b] == s.pcs[b])
            && (t.pcs[c].Holding? <==> M.CanTake(s, c))
            && (t.pcs[c].Holding? ==> forall b :: !M.Holds(s, b, t.pcs[c].item))
  {
  }

  lemma DoneChangesOneHolder(p: M.Policy, s: M.State, e: M.Event)
    requires e.Done? && M.Enabled(p, s, e)
    ensures var t := M.Apply(p, s, e);
            && t.pcs.Keys == s.pcs.Keys
            && (forall b, x :: M.Holds(t, b, x) <==> b != e.c && M.Holds(s, b, x))
            && (forall b :: b in s.pcs ==> (t.pcs[b].Holding? <==> b != e.c && s.pcs[b].Holding?))
  {
  }

  lemma EnvKeepsLocal(cfg: Config, s: Sys, t: Sys)
    requires Local(cfg, s)
    requires t == s.(m := t.m, channel := t.channel, waiting := t.waiting, loop := t.loop, now := t.now)
    requires t.m.pcs.Keys == s.m.pcs.Keys
    requires forall c, x :: M.Holds(t.m, c, x) <==> M.Holds(s.m, c, x)
    requires forall c :: c in s.m.pcs ==> (t.m.pcs[c].Holding? <==> s.m.pcs[c].Holding?)
    ensures Local(cfg, t)
  {
  }

  lemma EnvKeepsInv(cfg: Config, s: Sys, e: Event)
    requires Inv(cfg, s) && Enabled(cfg, s, e) && e.Env?
    ensures Inv(cfg, Apply(cfg, s, e))
  {
    M.StepKeepsSafe(cfg.policy, s.m, e.e);
    OutsidersKeepHolders(cfg.policy, s.m, e.e);
    EnvKeepsLocal(cfg, s, Apply(cfg, s, e));
  }

  lemma AddNowKeepsInv(cfg: Config, s: Sys, e: Event)
    requires Inv(cfg, s) && Enabled(cfg, s, e) && e.AddNow?
    ensures Inv(cfg, Apply(cfg, s, e))
  {
    var f := AddEvent(s, e.c, e.wake);
    assert M.Holds(s.m, e.c, ItemOf(s, e.c));
    M.StepKeepsSafe(cfg.policy, s.m, f);
    OutsidersKeepHolders(cfg.policy, s.m, f);
    var mid := s.(m := M.Apply(cfg.policy, s.m, f));
    EnvKeepsLocal(cfg, s, mid);
    PhaseKeepsLocal(cfg, mid, Apply(cfg, s, e), e.c);
  }

  lemma GetKeepsInv(cfg: Config, s: Sys, e: Event)
    requires Inv(cfg, s) && Enabled(cfg, s, e) && e.Get?
    ensures Inv(cfg, Apply(cfg, s, e))
  {
    M.StepKeepsSafe(cfg.policy, s.m, M.Get(e.c));
    GetChangesOneHolder(cfg.policy, s.m, e.c);
    GetKeepsLocal(cfg, s, Apply(cfg, s, e), e.c);
  }

  lemma GetKeepsLocal(cfg: Config, s: Sys, t: Sys, c: Id)
    requires Local(cfg, s) && c in s.m.pcs && !s.m.pcs[c].Holding?
    requires t.m.pcs.Keys == s.m.pcs.Keys && forall b :: b in s.m.pcs && b != c ==> t.m.pcs[b] == s.m.pcs[b]
    requires t == s.(m := t.m, phases := if t.m.pcs[c].Holding? then s.phases[c := Reconciling] else s.phases)
    ensures Local(cfg, t)
  {
    forall x ensures Between(s, x) ==> Between(t, x) {
      BetweenIsKept(s, t, x);
    }
    assert forall b, x :: b != c ==> (M.Holds(t.m, b, x) <==> M.Holds(s.m, b, x));
  }

  lemma FinishKeepsInv(cfg: Config, s: Sys, e: Event)
    requires Inv(cfg, s) && Enabled(cfg, s, e) && e.Finish?
    ensures Inv(cfg, Apply(cfg, s, e))
  {
    M.StepKeepsSafe(cfg.policy, s.m, FinishEvent(cfg, s, e.c, e.wake));
    DoneChangesOneHolder(cfg.policy, s.m, FinishEvent(cfg, s, e.c, e.wake));
    FinishKeepsLocal(cfg, s, Apply(cfg, s, e), e.c);
  }

  lemma FinishKeepsLocal(cfg: Config, s: Sys, t: Sys, c: Id)
    requires Local(cfg, s) && c in s.m.pcs && s.phases[c] == Finishing
    requires t.m.pcs.Keys == s.m.pcs.Keys
    requires forall b, x :: M.Holds(t.m, b, x) <==> b != c && M.Holds(s.m, b, x)
    requires forall b :: b in s.m.pcs ==> (t.m.pcs[b].Holding? <==> b != c && s.m.pcs[b].Holding?)
    requires t == s.(m := t.m, phases := s.phases[c := Outside])
    ensures Local(cfg, t)
  {
  }

  /** The waiting loop and the clock touch neither counters nor phases. */
  lemma LoopKeepsInv(cfg: Config, s: Sys, e: Event)
    requires Inv(cfg, s) && Enabled(cfg, s, e) && (e.Tick? || IsLoopStep(e)) && !e.LoopAdd?
    ensures Inv(cfg, Apply(cfg, s, e))
  {
    hide M.Safe, Local;
    EnvKeepsLocal(cfg, s, Apply(cfg, s, e));
  }

  lemma LoopAddKeepsInv(cfg: Config, s: Sys, e: Event)
    requires Inv(cfg, s) && Enabled(cfg, s, e) && e.LoopAdd?
    ensures Inv(cfg, Apply(cfg, s, e))
  {
    var f := M.Add(s.loop.item, s.loop.lane, e.wake);
    M.StepKeepsSafe(cfg.policy, s.m, f);
    OutsidersKeepHolders(cfg.policy, s.m, f);
    EnvKeepsLocal(cfg, s, Apply(cfg, s, e));
  }

  // ---------- steps at the counters ----------

  /** A worker moves on without entering or leaving the stretch between two counter updates. */
  lemma PhaseKeepsLocal(cfg: Config, s: Sys, t: Sys, c: Id)
    requires Local(cfg, s) && Works(s, c) && !s.phases[c].Counted? && !s.phases[c].Forgetting?
    requires t == s.(phases := t.phases, channel := t.channel)
    requires c in t.phases && t.phases == s.phases[c := t.phases[c]] && t.phases[c] != Outside
    requires !t.phases[c].Counted? && !t.phases[c].Forgetting?
    requires Knows(cfg, t.phases[c], Count(s.failures, ItemOf(s, c)), Count(s.limiter, ItemOf(s, c)))
    ensures Local(cfg, t)
  {
  }

  lemma MoveKeepsInv(cfg: Config, s: Sys, e: Event)
    requires Inv(cfg, s) && Enabled(cfg, s, e)
    requires e.CheckShutDown? || e.ReadFresh? || e.Send? || e.Drop?
    ensures Inv(cfg, Apply(cfg, s, e))
  {
    assert M.Holds(s.m, e.c, ItemOf(s, e.c));
    PhaseKeepsLocal(cfg, s, Apply(cfg, s, e), e.c);
  }

  /** A holder updates a counter of its own item, which nobody else holds. */
  lemma CountKeepsLocal(cfg: Config, s: Sys, t: Sys, c: Id, x: Item)
    requires Local(cfg, s) && Works(s, c) && x == ItemOf(s, c)
    requires forall b :: M.Holds(s.m, b, x) ==> b == c
    requires t == s.(phases := t.phases, failures := t.failures, limiter := t.limiter)
    requires c in t.phases && t.phases == s.phases[c := t.phases[c]] && t.phases[c] != Outside
    requires forall y :: y != x ==>
               Count(t.failures, y) == Count(s.failures, y) && Count(t.limiter, y) == Count(s.limiter, y)
    requires Knows(cfg, t.phases[c], Count(t.failures, x), Count(t.limiter, x))
    requires t.phases[c].Counted? || t.phases[c].Forgetting? || Count(t.failures, x) == Count(t.limiter, x)
    ensures Local(cfg, t)
  {
  }

  /** The first of the two counters is updated. */
  lemma FirstUpdateKeepsInv(cfg: Config, s: Sys, e: Event)
    requires Inv(cfg, s) && Enabled(cfg, s, e) && (e.Fail? || e.Forget?)
    ensures Inv(cfg, Apply(cfg, s, e))
  {
    var x := ItemOf(s, e.c);
    assert M.Holds(s.m, e.c, x);
    NotBetween(s, e.c, x);
    CountKeepsLocal(cfg, s, Apply(cfg, s, e), e.c, x);
  }

  /** The second follows. */
  lemma SecondUpdateKeepsInv(cfg: Config, s: Sys, e: Event)
    requires Inv(cfg, s) && Enabled(cfg, s, e) && (e.When? || e.ForgetLimiter?)
    ensures Inv(cfg, Apply(cfg, s, e))
  {
    var x := ItemOf(s, e.c);
    assert M.Holds(s.m, e.c, x);
    CountKeepsLocal(cfg, s, Apply(cfg, s, e), e.c, x);
  }

  lemma NotBetween(s: Sys, c: Id, x: Item)
    requires M.ExclusiveHolders(s.m) && M.Holds(s.m, c, x) && c in s.phases
    requires !s.phases[c].Counted? && !s.phases[c].Forgetting?
    ensures !Between(s, x)
  {
  }

  /** A worker's step away from the monitor. */
  lemma WorkerKeepsInv(cfg: Config, s: Sys, e: Event)
    requires Inv(cfg, s) && Enabled(cfg, s, e)
    requires Actor(e).Some? && !e.Get? && !e.AddNow? && !e.Finish?
    ensures Inv(cfg, Apply(cfg, s, e))
  {
    hide Inv, Enabled, Apply;
    if e.Fail? || e.Forget? {
      FirstUpdateKeepsInv(cfg, s, e);
    } else if e.When? || e.ForgetLimiter? {
      SecondUpdateKeepsInv(cfg, s, e);
    } else {
      MoveKeepsInv(cfg, s, e);
    }
  }

  lemma StepKeepsInv(cfg: Config, s: Sys, e: Event)
    requires Inv(cfg, s) && Enabled(cfg, s, e)
    ensures Inv(cfg, Apply(cfg, s, e))
  {
    hide Inv, Enabled, Apply;
    match e {
      case Env(_) => EnvKeepsInv(cfg, s, e);
      case Tick(_) => LoopKeepsInv(cfg, s, e);
      case AddNow(_, _) => AddNowKeepsInv(cfg, s, e);
      case Get(_) => GetKeepsInv(cfg, s, e);
      case Finish(_, _) => FinishKeepsInv(cfg, s, e);
      case LoopAdd(_) => LoopAddKeepsInv(cfg, s, e);
      case _ =>
        if IsLoopStep(e) {
          LoopKeepsInv(cfg, s, e);
        } else {
          WorkerKeepsInv(cfg, s, e);
        }
    }
  }

  lemma {:induction false} RunKeepsInv(cfg: Config, s: Sys, es: seq<Event>)
    requires Inv(cfg, s) && IsRun(cfg, s, es)
    ensures Inv(cfg, Final(cfg, s, es))
    decreases |es|
  {
    if es != [] {
      StepKeepsInv(cfg, s, es[0]);
      RunKeepsInv(cfg, Apply(cfg, s, es[0]), es[1..]);
    }
  }

  lemma InitInv(cfg: Config, roles: Roles)
    ensures Inv(cfg, Init(roles))
  {
  }

  /** The two counters agree in every reachable state, for every item whose holder is not in the
      middle of AddRateLimited or Forget, although no lock covers both. */
  lemma CountersStayEqual(cfg: Config, roles: Roles, es: seq<Event>, x: Item)
    requires IsRun(cfg, Init(roles), es)
    ensures var s := Final(cfg, Init(roles), es);
            !Between(s, x) ==> Count(s.failures, x) == Count(s.limiter, x)
  {
    InitInv(cfg, roles);
    RunKeepsInv(cfg, Init(roles), es);
  }

  // ---------- the fresh budget ----------

  /** How many times reconcile failed on x since it last succeeded on it, counted back from step k. */
  ghost function FailuresUpTo(cfg: Config, s0: Sys, es: seq<Event>, k: nat, x: Item): nat
    requires IsRun(cfg, s0, es) && k <= |es|
  {
    if k == 0 then 0
    else
      AtStep(cfg, s0, es, k - 1);
      var e, s := es[k - 1], At(cfg, s0, es, k - 1);
      if e.Fail? && ItemOf(s, e.c) == x then FailuresUpTo(cfg, s0, es, k - 1, x) + 1
      else if e.Forget? && ItemOf(s, e.c) == x then 0
      else FailuresUpTo(cfg, s0, es, k - 1, x)
  }

  /** The count isFresh reads is that number, at every point of every run. */
  lemma {:induction false} FailuresAreCounted(cfg: Config, roles: Roles, es: seq<Event>, k: nat, x: Item)
    requires IsRun(cfg, Init(roles), es) && k <= |es|
    ensures Count(At(cfg, Init(roles), es, k).failures, x) == FailuresUpTo(cfg, Init(roles), es, k, x)
  {
    if k > 0 {
      FailuresAreCounted(cfg, roles, es, k - 1, x);
      AtStep(cfg, Init(roles), es, k - 1);
    }
  }

  lemma {:induction false} InvAt(cfg: Config, roles: Roles, es: seq<Event>, k: nat)
    requires IsRun(cfg, Init(roles), es) && k <= |es|
    ensures Inv(cfg, At(cfg, Init(roles), es, k))
  {
    if k == 0 {
      InitInv(cfg, roles);
    } else {
      InvAt(cfg, roles, es, k - 1);
      AtStep(cfg, Init(roles), es, k - 1);
      StepKeepsInv(cfg, At(cfg, Init(roles), es, k - 1), es[k - 1]);
    }
  }

  lemma AdmittedDelay(cfg: Config, s: Sys, c: Id)
    requires Inv(cfg, s) && Works(s, c) && s.phases[c].Admitted? && !s.phases[c].again
    ensures var n := Count(s.failures, ItemOf(s, c));
            n >= 1 && s.phases[c].delay == DelayFor(cfg, n)
  {
    assert M.Holds(s.m, c, ItemOf(s, c));
    NotBetween(s, c, ItemOf(s, c));
  }

  // ---------- the lane Done picks ----------

  /** What the comments on Done and on freshThreshold ask for: too many retries mean staled. */
  function PromisedFinish(cfg: Config, s: Sys, c: Id): Queue
    requires Works(s, c)
  {
    Lanes.Finish(s.m.q, ItemOf(s, c), LaneFor(cfg, Count(s.failures, ItemOf(s, c))))
  }

  /** Done's comparison is the wrong way round. In every reachable state it picks the lane that
      isFresh would not, so it does what its comment says exactly when it re-queues nothing. */
  lemma DoneKeepsItsPromiseIff(cfg: Config, roles: Roles, es: seq<Event>, c: Id, wake: Option<Id>)
    requires IsRun(cfg, Init(roles), es)
    requires Enabled(cfg, Final(cfg, Init(roles), es), Finish(c, wake))
    ensures var s := Final(cfg, Init(roles), es);
            var t := Apply(cfg, s, Finish(c, wake));
            t.m.q == PromisedFinish(cfg, s, c) <==> ItemOf(s, c) !in s.m.q.dirty
    ensures var s := Final(cfg, Init(roles), es);
            var t := Apply(cfg, s, Finish(c, wake));
            var x := ItemOf(s, c);
            var n := FailuresUpTo(cfg, Init(roles), es, |es|, x);
            x in s.m.q.dirty ==>
              && (n > cfg.threshold ==> t.m.q == s.m.q.(processing := s.m.q.processing - {x}).Append(x, Fresh))
              && (n <= cfg.threshold ==> t.m.q == s.m.q.(processing := s.m.q.processing - {x}).Append(x, Staled))
  {
    InvAt(cfg, roles, es, |es|);
    AtEnd(cfg, Init(roles), es);
    var s := Final(cfg, Init(roles), es);
    var x := ItemOf(s, c);
    assert M.Holds(s.m, c, x);
    NotBetween(s, c, x);
    FailuresAreCounted(cfg, roles, es, |es|, x);
    var t := Apply(cfg, s, Finish(c, wake));
    if x in s.m.q.dirty {
      var n := Count(s.failures, x);
      var right, wrong := PromisedFinish(cfg, s, c), t.m.q;
      assert DoneLane(cfg, n) != LaneFor(cfg, n);
      assert |right.Contents(LaneFor(cfg, n))| == |wrong.Contents(LaneFor(cfg, n))| + 1;
    }
  }

  // ---------- what a worker holds ----------

  lemma MonitorKeepsHeld(p: M.Policy, s: M.State, e: M.Event, c: Id, x: Item)
    requires M.Safe(s) && M.Enabled(p, s, e) && M.Holds(s, c, x) && !(e.Done? && e.c == c)
    ensures var t := M.Apply(p, s, e);
            && M.Holds(t, c, x)
            && (x in s.q.dirty ==> x in t.q.dirty)
            && (s.q.shuttingDown ==> t.q.shuttingDown && (x in t.q.dirty ==> x in s.q.dirty))
  {
  }

  /** What c holds in s is still in its hands in t, dirty if it was, and clean if it was on a queue
      that is shut down. */
  predicate StillHolds(s: Sys, t: Sys, c: Id) {
    && Works(s, c) && Works(t, c) && ItemOf(t, c) == ItemOf(s, c)
    && (ItemOf(s, c) in s.m.q.dirty ==> ItemOf(s, c) in t.m.q.dirty)
    && (s.m.q.shuttingDown ==>
          t.m.q.shuttingDown && (ItemOf(s, c) in t.m.q.dirty ==> ItemOf(s, c) in s.m.q.dirty))
  }

  predicate CallsDone(e: Event, c: Id) {
    e.Finish? && e.c == c
  }

  lemma StillHoldsLonger(s: Sys, t: Sys, u: Sys, c: Id)
    requires StillHolds(s, t, c) && StillHolds(t, u, c)
    ensures StillHolds(s, u, c)
  {
  }

  /** What a worker holds stays in its hands until its Done. */
  lemma HeldStaysHeld(cfg: Config, s: Sys, e: Event, t: Sys, c: Id)
    requires Inv(cfg, s) && StepsTo(cfg, s, e, t) && Works(s, c) && !CallsDone(e, c)
    ensures StillHolds(s, t, c)
  {
    StepAtTheMonitor(cfg, s, e);
    hide Enabled, Apply, Abstract, M.Enabled, M.Apply;
    var fs := Abstract(cfg, s, e);
    if fs != [] {
      assert M.Holds(s.m, c, ItemOf(s, c));
      MonitorKeepsHeld(cfg.policy, s.m, fs[0], c, ItemOf(s, c));
    }
  }

  // ---------- no retry is forgotten ----------

  /** Between a failure and the re-add it calls for. */
  predicate OwesRetry(phase: Phase) {
    phase.Counted? || ((phase.Delaying? || phase.Admitted? || phase.Adding?) && !phase.again)
  }

  predicate Owes(s: Sys, c: Id) {
    c in s.phases && OwesRetry(s.phases[c])
  }

  /** A failure, and the answers to it: the retry is handed to the waiting loop; having no delay it
      is added by the worker itself; or AddAfter gives up because of the shutdown, before or while
      it sends. */
  datatype Kind = Failed | Sent | Added | Refused

  predicate IsOf(kind: Kind, s: Sys, e: Event, c: Id) {
    match kind
    case Failed => e == Fail(c)
    case Sent => e == Send(c) && Owes(s, c)
    case Added => e.AddNow? && e.c == c && Owes(s, c)
    case Refused => (e == CheckShutDown(c) || e == Drop(c)) && Owes(s, c) && s.m.q.shuttingDown
  }

  /** How many steps of a run are of this kind for worker c. */
  ghost function Times(cfg: Config, s: Sys, es: seq<Event>, kind: Kind, c: Id): nat
    requires IsRun(cfg, s, es)
    decreases |es|
  {
    if es == [] then 0
    else One(IsOf(kind, s, es[0], c)) + Times(cfg, Apply(cfg, s, es[0]), es[1..], kind, c)
  }

  /** The worker that takes a step, if one does. */
  function Actor(e: Event): Option<Id> {
    match e
    case Get(c) => Some(c)
    case Fail(c) => Some(c)
    case When(c) => Some(c)
    case CheckShutDown(c) => Some(c)
    case ReadFresh(c) => Some(c)
    case Send(c) => Some(c)
    case Drop(c) => Some(c)
    case AddNow(c, _) => Some(c)
    case Forget(c, _) => Some(c)
    case ForgetLimiter(c) => Some(c)
    case Finish(c, _) => Some(c)
    case _ => None
  }

  ghost predicate StepsTo(cfg: Config, s: Sys, e: Event, t: Sys) {
    Enabled(cfg, s, e) && t == Apply(cfg, s, e)
  }

  lemma OthersKeepPhase(cfg: Config, s: Sys, e: Event, t: Sys, c: Id)
    requires StepsTo(cfg, s, e, t) && c in s.phases && Actor(e) != Some(c)
    ensures c in t.phases && t.phases[c] == s.phases[c]
  {
    hide M.Apply, M.Enabled;
  }

  lemma MonitorStaysShutDown(p: M.Policy, s: M.State, e: M.Event)
    requires M.Enabled(p, s, e) && s.q.shuttingDown
    ensures M.Apply(p, s, e).q.shuttingDown
  {
  }

  lemma ShutDownStays(cfg: Config, s: Sys, e: Event, t: Sys)
    requires StepsTo(cfg, s, e, t) && s.m.q.shuttingDown
    ensures t.m.q.shuttingDown
  {
    forall f | M.Enabled(cfg.policy, s.m, f) ensures M.Apply(cfg.policy, s.m, f).q.shuttingDown {
      MonitorStaysShutDown(cfg.policy, s.m, f);
    }
    hide M.Enabled, M.Apply;
  }

  /** What a step changes in the account of worker c. */
  ghost predicate Balances(s: Sys, t: Sys, e: Event, c: Id) {
    && c in t.phases
    && One(Owes(s, c)) + One(IsOf(Failed, s, e, c))
       == One(Owes(t, c)) + One(IsOf(Sent, s, e, c)) + One(IsOf(Added, s, e, c)) + One(IsOf(Refused, s, e, c))
  }

  /** A worker's steps up to the check for shutdown. */
  lemma EarlyStepSettles(cfg: Config, s: Sys, e: Event, t: Sys, c: Id)
    requires Linked(s) && StepsTo(cfg, s, e, t) && Actor(e) == Some(c) && c in s.phases
    requires e.Get? || e.Fail? || e.When? || e.CheckShutDown? || e.Forget? || e.ForgetLimiter?
    ensures Balances(s, t, e, c)
  {
    hide M.Apply;
    if !e.Get? {
      hide M.Enabled, Linked;
    }
  }

  /** The steps after it. */
  lemma LateStepSettles(cfg: Config, s: Sys, e: Event, t: Sys, c: Id)
    requires StepsTo(cfg, s, e, t) && Actor(e) == Some(c) && c in s.phases
    requires e.ReadFresh? || e.Send? || e.Drop? || e.AddNow? || e.Finish?
    ensures Balances(s, t, e, c)
  {
    hide M.Apply, M.Enabled;
  }

  lemma StepSettles(cfg: Config, s: Sys, e: Event, t: Sys, c: Id)
    requires Linked(s) && StepsTo(cfg, s, e, t) && c in s.phases
    ensures Balances(s, t, e, c)
  {
    hide StepsTo, Linked;
    if Actor(e) == Some(c) {
      if e.ReadFresh? || e.Send? || e.Drop? || e.AddNow? || e.Finish? {
        LateStepSettles(cfg, s, e, t, c);
      } else {
        EarlyStepSettles(cfg, s, e, t, c);
      }
    } else {
      OthersKeepPhase(cfg, s, e, t, c);
    }
  }

  /** Every failure of every worker is answered once: by a request to the waiting loop, by a call
      of q.add, or by nothing because the queue is shutting down. Without a shutdown there is no
      third answer. */
  lemma {:induction false} FailuresAreRetriedOnce(cfg: Config, s: Sys, es: seq<Event>, c: Id)
    requires Inv(cfg, s) && IsRun(cfg, s, es) && c in s.phases
    ensures One(Owes(s, c)) + Times(cfg, s, es, Failed, c)
         == One(Owes(Final(cfg, s, es), c)) + Times(cfg, s, es, Sent, c)
            + Times(cfg, s, es, Added, c) + Times(cfg, s, es, Refused, c)
    ensures Times(cfg, s, es, Refused, c) > 0 ==> Final(cfg, s, es).m.q.shuttingDown
    decreases |es|
  {
    if es != [] {
      var e, t := es[0], Apply(cfg, s, es[0]);
      StepKeepsInv(cfg, s, e);
      StepSettles(cfg, s, e, t, c);
      FailuresAreRetriedOnce(cfg, t, es[1..], c);
      if s.m.q.shuttingDown {
        ShutDownIsForever(cfg, s, es);
      }
      hide Inv, Enabled, Apply, Owes;
    }
  }

  lemma {:induction false} ShutDownIsForever(cfg: Config, s: Sys, es: seq<Event>)
    requires IsRun(cfg, s, es) && s.m.q.shuttingDown
    ensures Final(cfg, s, es).m.q.shuttingDown
    decreases |es|
  {
    if es != [] {
      ShutDownStays(cfg, s, es[0], Apply(cfg, s, es[0]));
      ShutDownIsForever(cfg, Apply(cfg, s, es[0]), es[1..]);
    }
  }
}
