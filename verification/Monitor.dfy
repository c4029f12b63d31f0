/** The queue under its one lock and one condition variable, shared by any number of callers.

    A critical section is one step. A caller that reaches Wait gives the lock up and is Parked;
    Signal makes one Parked caller (whichever) Woken; a Woken caller holds the lock again only in
    a later step of its own, so others may run in between. */
module Monitor {
  import opened Lanes

  type Id = nat

  /** Which entry point a goroutine uses: Get, GetFresh or ShutDownWithDrain. */
  datatype Role = Getter | FreshGetter | Drainer

  datatype Pc =
    | Idle
    | Checking               // a drainer about to call waitForProcessing
    | Parked
    | Woken
    | Holding(item: Item)    // between a Get that returned the item and its Done
    | Exited

  /** How Done wakes others. The code signals only for an item that is dirty again; the variants
      signal, or broadcast, every time. */
  datatype Policy = AsWritten | SignalOnDone | BroadcastOnDone

  datatype State = State(q: Queue, roles: map<Id, Role>, pcs: map<Id, Pc>)

  datatype Event =
    | Add(item: Item, lane: Lane, wake: Option<Id>)
    | Get(c: Id)
    | Done(c: Id, lane: Lane, wake: Option<Id>)
    | ShutDown
    | BeginDrain(c: Id)
    | CheckDrained(c: Id)
    | ResumeDrain(c: Id)

  // ---------- the condition variable ----------

  ghost predicate AnyParked(pcs: map<Id, Pc>) {
    exists c :: c in pcs && pcs[c] == Parked
  }

  /** Signal wakes some parked caller, and nobody only when nobody is parked. */
  ghost predicate MayWake(pcs: map<Id, Pc>, wake: Option<Id>) {
    match wake
    case None => !AnyParked(pcs)
    case Some(c) => c in pcs && pcs[c] == Parked
  }

  function Signal(pcs: map<Id, Pc>, wake: Option<Id>): map<Id, Pc> {
    if wake.Some? then pcs[wake.value := Woken] else pcs
  }

  function Broadcast(pcs: map<Id, Pc>): map<Id, Pc> {
    map c | c in pcs :: if pcs[c] == Parked then Woken else pcs[c]
  }

  // ---------- steps ----------

  predicate Is(s: State, c: Id, pc: Pc) {
    c in s.pcs && s.pcs[c] == pc
  }

  predicate HasRole(s: State, c: Id, role: Role) {
    c in s.roles && s.roles[c] == role
  }

  predicate IsWorker(s: State, c: Id) {
    c in s.roles && s.roles[c] != Drainer
  }

  predicate CanTake(s: State, c: Id)
    requires c in s.roles
  {
    Ready(s.q, s.roles[c] == FreshGetter)
  }

  predicate DoneSignals(p: Policy, s: State, x: Item) {
    p == SignalOnDone || (p == AsWritten && x in s.q.dirty)
  }

  ghost predicate Enabled(p: Policy, s: State, e: Event) {
    match e
    case Add(x, _, wake) => AddSignals(s.q, x) ==> MayWake(s.pcs, wake)
    case Get(c) => IsWorker(s, c) && (Is(s, c, Idle) || Is(s, c, Woken))
    case Done(c, _, wake) =>
      && c in s.pcs && s.pcs[c].Holding?
      && (DoneSignals(p, s, s.pcs[c].item) ==> MayWake(s.pcs, wake))
    case ShutDown => true
    case BeginDrain(c) => HasRole(s, c, Drainer) && Is(s, c, Idle)
    case CheckDrained(c) => HasRole(s, c, Drainer) && Is(s, c, Checking)
    case ResumeDrain(c) => HasRole(s, c, Drainer) && Is(s, c, Woken)
  }

  /** ShutDown runs its body, broadcast included, only the first time. */
  function AfterShutDown(s: State): State {
    if s.q.shuttingDown then s
    else s.(q := Lanes.ShutDown(s.q), pcs := Broadcast(s.pcs))
  }

  function AfterGet(s: State, c: Id): State
    requires c in s.roles
  {
    var freshOnly := s.roles[c] == FreshGetter;
    if CanTake(s, c) then
      s.(q := Take(s.q, freshOnly), pcs := s.pcs[c := Holding(Head(s.q, freshOnly))])
    else if s.q.shuttingDown then s.(pcs := s.pcs[c := Exited])
    else s.(pcs := s.pcs[c := Parked])
  }

  function AfterDone(p: Policy, s: State, c: Id, lane: Lane, wake: Option<Id>): State
    requires c in s.pcs && s.pcs[c].Holding?
  {
    var x := s.pcs[c].item;
    var pcs := s.pcs[c := Idle];
    s.(q := Finish(s.q, x, lane),
       pcs := if DoneSignals(p, s, x) then Signal(pcs, wake)
              else if p == BroadcastOnDone then Broadcast(pcs)
              else pcs)
  }

  function Apply(p: Policy, s: State, e: Event): State
    requires Enabled(p, s, e)
  {
    match e
    case Add(x, lane, wake) =>
      s.(q := Lanes.Add(s.q, x, lane), pcs := if AddSignals(s.q, x) then Signal(s.pcs, wake) else s.pcs)
    case Get(c) => AfterGet(s, c)
    case Done(c, lane, wake) => AfterDone(p, s, c, lane, wake)
    case ShutDown => AfterShutDown(s)
    case BeginDrain(c) => var t := AfterShutDown(s); t.(pcs := t.pcs[c := Checking])
    case CheckDrained(c) => s.(pcs := s.pcs[c := if s.q.processing == {} then Exited else Parked])
    case ResumeDrain(c) => s.(pcs := s.pcs[c := Checking])
  }

  function Init(roles: map<Id, Role>): State {
    State(EMPTY, roles, map c | c in roles :: Idle)
  }

  // ---------- runs ----------

  ghost predicate IsRun(p: Policy, s: State, es: seq<Event>)
    decreases |es|
  {
    es == [] || (Enabled(p, s, es[0]) && IsRun(p, Apply(p, s, es[0]), es[1..]))
  }

  ghost function Final(p: Policy, s: State, es: seq<Event>): State
    requires IsRun(p, s, es)
    decreases |es|
  {
    if es == [] then s else Final(p, Apply(p, s, es[0]), es[1..])
  }

  ghost predicate Reachable(p: Policy, roles: map<Id, Role>, s: State) {
    exists es :: IsRun(p, Init(roles), es) && Final(p, Init(roles), es) == s
  }

  /** What holds at first and is kept by every step holds after every run. */
  lemma {:induction false} Induct(p: Policy, inv: State -> bool, s: State, es: seq<Event>)
    requires inv(s) && IsRun(p, s, es)
    requires forall t, e :: inv(t) && Enabled(p, t, e) ==> inv(Apply(p, t, e))
    ensures inv(Final(p, s, es))
    decreases |es|
  {
    if es != [] {
      Induct(p, inv, Apply(p, s, es[0]), es[1..]);
    }
  }

  lemma {:induction false} RunThenRun(p: Policy, s: State, es: seq<Event>, fs: seq<Event>)
    requires IsRun(p, s, es) && IsRun(p, Final(p, s, es), fs)
    ensures IsRun(p, s, es + fs) && Final(p, s, es + fs) == Final(p, Final(p, s, es), fs)
    decreases |es|
  {
    if es == [] {
      assert es + fs == fs;
    } else {
      RunThenRun(p, Apply(p, s, es[0]), es[1..], fs);
      assert (es + fs)[1..] == es[1..] + fs;
    }
  }

  /** One more step at the front of a run. */
  lemma StepThenRun(p: Policy, s: State, e: Event, es: seq<Event>)
    requires Enabled(p, s, e) && IsRun(p, Apply(p, s, e), es)
    ensures IsRun(p, s, [e] + es) && Final(p, s, [e] + es) == Final(p, Apply(p, s, e), es)
  {
  }

  /** One more step at the end of a run. */
  lemma RunThenStep(p: Policy, s: State, es: seq<Event>, e: Event)
    requires IsRun(p, s, es) && Enabled(p, Final(p, s, es), e)
    ensures IsRun(p, s, es + [e]) && Final(p, s, es + [e]) == Apply(p, Final(p, s, es), e)
  {
    var t := Final(p, s, es);
    assert IsRun(p, t, [e]) by {
      assert IsRun(p, Apply(p, t, e), [e][1..]);
    }
    assert Final(p, t, [e]) == Apply(p, t, e) by {
      assert [e][1..] == [];
    }
    RunThenRun(p, s, es, [e]);
  }

  lemma InitIsReachable(p: Policy, roles: map<Id, Role>)
    ensures Reachable(p, roles, Init(roles))
  {
    assert IsRun(p, Init(roles), []) && Final(p, Init(roles), []) == Init(roles);
  }

  lemma StepIsReachable(p: Policy, roles: map<Id, Role>, s: State, e: Event)
    requires Reachable(p, roles, s) && Enabled(p, s, e)
    ensures Reachable(p, roles, Apply(p, s, e))
  {
    var es :| IsRun(p, Init(roles), es) && Final(p, Init(roles), es) == s;
    RunThenStep(p, Init(roles), es, e);
  }

  // ---------- mutual exclusion and the lanes ----------

  ghost predicate Holds(s: State, c: Id, x: Item) {
    Is(s, c, Holding(x))
  }

  ghost predicate ExclusiveHolders(s: State) {
    && (forall x :: x in s.q.processing <==> exists c :: Holds(s, c, x))
    && (forall b, c, x :: Holds(s, b, x) && Holds(s, c, x) ==> b == c)
  }

  /** Who can be where: only drainers check, only workers hold, and shutting down leaves
      nobody but drainers parked. */
  predicate Allowed(role: Role, pc: Pc, shuttingDown: bool) {
    match pc
    case Idle => true
    case Checking => role == Drainer && shuttingDown
    case Parked => (role == Drainer) == shuttingDown
    case Woken => role == Drainer ==> shuttingDown
    case Holding(_) => role != Drainer
    case Exited => shuttingDown
  }

  ghost predicate Disciplined(s: State) {
    && s.roles.Keys == s.pcs.Keys
    && forall c :: c in s.pcs ==> Allowed(s.roles[c], s.pcs[c], s.q.shuttingDown)
  }

  ghost predicate Safe(s: State) {
    Valid(s.q) && ExclusiveHolders(s) && Disciplined(s)
  }

  lemma StepKeepsLanes(p: Policy, s: State, e: Event)
    requires Safe(s) && Enabled(p, s, e)
    ensures Valid(Apply(p, s, e).q)
  {
    match e {
      case Add(x, lane, _) => AddKeepsValid(s.q, x, lane);
      case Get(c) =>
        if CanTake(s, c) {
          TakeKeepsValid(s.q, s.roles[c] == FreshGetter);
        }
      case Done(c, lane, _) =>
        assert Holds(s, c, s.pcs[c].item);
        FinishKeepsValid(s.q, s.pcs[c].item, lane);
      case ShutDown =>
      case BeginDrain(_) =>
      case CheckDrained(_) =>
      case ResumeDrain(_) =>
    }
  }

  lemma GetKeepsExclusion(s: State, c: Id)
    requires Safe(s) && IsWorker(s, c) && (Is(s, c, Idle) || Is(s, c, Woken)) && CanTake(s, c)
    ensures ExclusiveHolders(AfterGet(s, c))
  {
    var t := AfterGet(s, c);
    var y := Head(s.q, s.roles[c] == FreshGetter);
    TakeKeepsValid(s.q, s.roles[c] == FreshGetter);
    assert Holds(t, c, y);
    assert forall b, x :: b != c ==> (Holds(t, b, x) <==> Holds(s, b, x));
    forall x ensures x in t.q.processing <==> exists b :: Holds(t, b, x) {
      if x != y && x in t.q.processing {
        var b :| Holds(s, b, x);
        assert Holds(t, b, x);
      }
    }
  }

  lemma DoneKeepsExclusion(p: Policy, s: State, c: Id, lane: Lane, wake: Option<Id>)
    requires Safe(s) && Enabled(p, s, Done(c, lane, wake))
    ensures ExclusiveHolders(AfterDone(p, s, c, lane, wake))
  {
    var t := AfterDone(p, s, c, lane, wake);
    var y := s.pcs[c].item;
    assert Holds(s, c, y);
    assert forall b, x :: Holds(t, b, x) <==> b != c && Holds(s, b, x);
    forall x ensures x in t.q.processing <==> exists b :: Holds(t, b, x) {
      if x in t.q.processing {
        var b :| Holds(s, b, x);
        assert Holds(t, b, x);
      }
    }
  }

  lemma StepKeepsExclusion(p: Policy, s: State, e: Event)
    requires Safe(s) && Enabled(p, s, e)
    ensures ExclusiveHolders(Apply(p, s, e))
  {
    if e.Get? && CanTake(s, e.c) {
      GetKeepsExclusion(s, e.c);
    } else if e.Done? {
      DoneKeepsExclusion(p, s, e.c, e.lane, e.wake);
    } else {
      var t := Apply(p, s, e);
      assert forall b, x :: Holds(t, b, x) <==> Holds(s, b, x);
      assert t.q.processing == s.q.processing;
    }
  }

  lemma StepKeepsDiscipline(p: Policy, s: State, e: Event)
    requires Safe(s) && Enabled(p, s, e)
    ensures Disciplined(Apply(p, s, e)) && Apply(p, s, e).roles == s.roles
  {
    var t := Apply(p, s, e);
    forall c | c in t.pcs ensures Allowed(t.roles[c], t.pcs[c], t.q.shuttingDown) {
      assert Allowed(s.roles[c], s.pcs[c], s.q.shuttingDown);
    }
  }

  lemma StepKeepsSafe(p: Policy, s: State, e: Event)
    requires Safe(s) && Enabled(p, s, e)
    ensures Safe(Apply(p, s, e)) && Apply(p, s, e).roles == s.roles
  {
    StepKeepsLanes(p, s, e);
    StepKeepsExclusion(p, s, e);
    StepKeepsDiscipline(p, s, e);
  }

  /** In every state any callers can reach, under every interleaving: no item is held twice,
      `processing` is the set of held items, and the lanes partition the dirty items that
      nobody holds. */
  lemma ReachableIsSafe(p: Policy, roles: map<Id, Role>, s: State)
    requires Reachable(p, roles, s)
    ensures Safe(s) && s.roles == roles
  {
    var es :| IsRun(p, Init(roles), es) && Final(p, Init(roles), es) == s;
    forall t, e | Safe(t) && t.roles == roles && Enabled(p, t, e)
      ensures Safe(Apply(p, t, e)) && Apply(p, t, e).roles == roles
    {
      StepKeepsSafe(p, t, e);
    }
    Induct(p, t => Safe(t) && t.roles == roles, Init(roles), es);
  }
}
