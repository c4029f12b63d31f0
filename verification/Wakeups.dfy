/** When a sleeping worker and available work can coexist. */
module Wakeups {
  import opened Lanes
  import opened Monitor

  ghost function WokenCallers(s: State): set<Id> {
    set c | c in s.pcs && s.pcs[c] == Woken
  }

  /** How many items callers of this role could take. */
  function Takeable(s: State, role: Role): nat {
    if role == FreshGetter then |s.q.queueFresh| else s.q.Len()
  }

  /** Before shutdown: somebody sleeps although it could take an item, and nobody is on the way
      to the lock. */
  ghost predicate Lost(s: State) {
    && !s.q.shuttingDown
    && WokenCallers(s) == {}
    && exists c :: IsWorker(s, c) && Is(s, c, Parked) && CanTake(s, c)
  }

  ghost predicate Uniform(roles: map<Id, Role>, role: Role) {
    role != Drainer && forall c :: c in roles ==> roles[c] == role || roles[c] == Drainer
  }

  /** Every waiting item has a woken caller coming for it, as long as anybody sleeps. */
  ghost predicate Covered(s: State, role: Role) {
    !s.q.shuttingDown && AnyParked(s.pcs) ==> Takeable(s, role) <= |WokenCallers(s)|
  }

  lemma SignalWakesOne(s: State, t: State, wake: Option<Id>)
    requires MayWake(s.pcs, wake) && t.pcs == Signal(s.pcs, wake)
    ensures AnyParked(s.pcs) ==> |WokenCallers(t)| == |WokenCallers(s)| + 1
    ensures !AnyParked(s.pcs) ==> t.pcs == s.pcs
  {
    if wake.Some? {
      assert WokenCallers(t) == WokenCallers(s) + {wake.value};
    }
  }

  /** The code as written signals exactly when it puts an item into a lane. */
  lemma SignalsIffItQueues(s: State, e: Event)
    requires Safe(s) && Enabled(AsWritten, s, e) && (e.Add? || e.Done?)
    ensures var t := Apply(AsWritten, s, e);
            (if e.Add? then AddSignals(s.q, e.item) else DoneSignals(AsWritten, s, s.pcs[e.c].item))
            <==> t.q.Len() == s.q.Len() + 1
  {
  }

  lemma AddKeepsCovered(p: Policy, s: State, e: Event, role: Role)
    requires e.Add? && Enabled(p, s, e) && Covered(s, role)
    ensures Covered(Apply(p, s, e), role)
  {
    var t := Apply(p, s, e);
    if AddSignals(s.q, e.item) {
      SignalWakesOne(s, t, e.wake);
    } else {
      assert WokenCallers(t) == WokenCallers(s);
    }
  }

  lemma GetKeepsCovered(p: Policy, s: State, e: Event, role: Role)
    requires Safe(s) && Uniform(s.roles, role)
    requires e.Get? && Enabled(p, s, e) && Covered(s, role)
    ensures Covered(Apply(p, s, e), role)
  {
    var t := Apply(p, s, e);
    assert WokenCallers(t) == WokenCallers(s) - {e.c};
    assert CanTake(s, e.c) ==> (AnyParked(t.pcs) ==> AnyParked(s.pcs)) by {
      assert forall b :: b in t.pcs && b != e.c ==> t.pcs[b] == s.pcs[b];
    }
  }

  lemma DoneKeepsCovered(p: Policy, s: State, e: Event, role: Role)
    requires Safe(s) && e.Done? && Enabled(p, s, e) && Covered(s, role)
    ensures Covered(Apply(p, s, e), role)
  {
    var t := Apply(p, s, e);
    var mid := s.(pcs := s.pcs[e.c := Idle]);
    assert WokenCallers(mid) == WokenCallers(s);
    assert AnyParked(mid.pcs) <==> AnyParked(s.pcs) by {
      assert forall b :: b in s.pcs && s.pcs[b] == Parked ==> mid.pcs[b] == Parked;
    }
    assert MayWake(s.pcs, e.wake) ==> MayWake(mid.pcs, e.wake);
    if DoneSignals(p, s, s.pcs[e.c].item) {
      SignalWakesOne(mid, t, e.wake);
      assert AnyParked(t.pcs) ==> AnyParked(mid.pcs);
    }
  }

  lemma StepKeepsCovered(p: Policy, s: State, e: Event, role: Role)
    requires Safe(s) && Uniform(s.roles, role) && Enabled(p, s, e) && Covered(s, role)
    ensures Covered(Apply(p, s, e), role)
  {
    match e {
      case Add(_, _, _) => AddKeepsCovered(p, s, e, role);
      case Get(_) => GetKeepsCovered(p, s, e, role);
      case Done(_, _, _) => DoneKeepsCovered(p, s, e, role);
      case _ =>
    }
  }

  lemma CoveredIsNotLost(s: State, role: Role)
    requires Uniform(s.roles, role) && Covered(s, role)
    ensures !Lost(s)
  {
  }

  ghost predicate SafelyCovered(s: State, roles: map<Id, Role>, role: Role) {
    Safe(s) && s.roles == roles && Covered(s, role)
  }

  lemma StepKeepsSafelyCovered(p: Policy, roles: map<Id, Role>, s: State, e: Event, role: Role)
    requires Uniform(roles, role) && SafelyCovered(s, roles, role) && Enabled(p, s, e)
    ensures SafelyCovered(Apply(p, s, e), roles, role)
  {
    StepKeepsSafe(p, s, e);
    StepKeepsCovered(p, s, e, role);
  }

  /** No lost wake-up, also with barging callers: where all workers wait for the same thing,
      the items they could take never outnumber the callers already woken. */
  lemma UniformWorkersAreCovered(p: Policy, roles: map<Id, Role>, s: State, role: Role)
    requires Uniform(roles, role) && Reachable(p, roles, s)
    ensures Covered(s, role) && !Lost(s)
  {
    var es :| IsRun(p, Init(roles), es) && Final(p, Init(roles), es) == s;
    forall t, e | SafelyCovered(t, roles, role) && Enabled(p, t, e)
      ensures SafelyCovered(Apply(p, t, e), roles, role)
    {
      StepKeepsSafelyCovered(p, roles, t, e, role);
    }
    Induct(p, t => SafelyCovered(t, roles, role), Init(roles), es);
    CoveredIsNotLost(s, role);
  }
}
