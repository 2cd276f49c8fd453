/** The u64 virtual times of the scheduler are the images of unbounded integers in every run. */
module VruntimeClock {
  import opened Words
  import opened Arithmetic
  import opened Placement
  import opened Subsequences
  import opened IdleCpu
  import opened VirtualClock
  import opened Vruntime
  import opened VruntimeInvariants

  /** The largest charge for one slice. */
  function Bound(cfg: Config): nat {
    100 * cfg.sliceNs
  }

  /** The clock knows the enabled tasks and the running ones. */
  ghost predicate SameTasks(loc: map<Pid, Loc>, c: Clock) {
    && (forall p :: p in c.vtime <==> p in loc && loc[p] != Disabled)
    && c.running == RunningIn(loc)
  }

  /** The scheduler stores the words of the clock's integers. */
  ghost predicate Stores(s: State, c: Clock) {
    && s.vtimeNow == Wrap(c.now)
    && forall p :: p in c.vtime && p in s.tasks ==> s.tasks[p].vtime == Wrap(c.vtime[p])
  }

  /** What a callback does to the clock. */
  ghost function OpOf(cfg: Config, s: State, e: Event): Op
    requires Shape(cfg, s) && CanStep(cfg, s, e)
  {
    match e
    case Enable(p, _) => Admit(p)
    case Disable(p) => Retire(p)
    case SelectCpu(p, prev, _, anySmt, anyIdle) =>
      if PickIdle(cfg.topo, cfg.smtEnabled, s.masks, s.tasks[p].cpus, prev, anySmt, anyIdle).0 < 0
      then Nothing else Place(p)
    case Enqueue(p, _) => Place(p)
    case Run(p) => Advance(p)
    case Stop(p, _, sliceLeft, _, _) => Charge(p, ChargeOf(cfg, sliceLeft, s.tasks[p].weight))
    case _ => Nothing
  }

  lemma ChargeIsBounded(cfg: Config, sliceLeft: U64, weight: U64)
    requires ValidConfig(cfg)
    ensures ChargeOf(cfg, sliceLeft, weight) <= Bound(cfg)
  {
    if cfg.sliceNs > sliceLeft && weight > 0 {
      var used := (cfg.sliceNs - sliceLeft) * 100;
      assert Wrap(used) == used;
      QuotientAtMost(used, weight);
    }
  }

  /** The step of the integer clock that a callback makes. */
  ghost function IdealStep(cfg: Config, s: State, e: Event, c: Clock): Clock
    requires Shape(cfg, s) && CanStep(cfg, s, e) && Legal(Bound(cfg), c, OpOf(cfg, s, e))
  {
    Ideal(cfg.sliceLag, Bound(cfg), c, OpOf(cfg, s, e))
  }

  lemma CallbackIsLegal(cfg: Config, s: State, e: Event, c: Clock)
    requires Shape(cfg, s) && CanStep(cfg, s, e) && SameTasks(s.places.loc, c)
    requires Allowed(cfg.topo, s.places.loc, s.tasks)
    ensures Legal(Bound(cfg), c, OpOf(cfg, s, e))
  {
    if e.Stop? {
      ChargeIsBounded(cfg, e.sliceLeft, s.tasks[e.p].weight);
    }
  }

  lemma MoveKeepsTasks(cfg: Config, loc: map<Pid, Loc>, p: Pid, l: Loc, c: Clock, op: Op)
    requires SameTasks(loc, c) && Legal(Bound(cfg), c, op)
    requires match op
             case Nothing => p in loc ==> (loc[p] == Disabled <==> l == Disabled) && !loc[p].Running? && !l.Running?
             case Admit(q) => q == p && p in loc && l != Disabled && !l.Running?
             case Retire(q) => q == p && p in loc && l == Disabled
             case Place(q) => q == p && l != Disabled && !l.Running?
             case Advance(q) => q == p && l.Running?
             case Charge(q, _) => q == p && l != Disabled && !l.Running?
    requires p !in loc ==> l == Disabled
    ensures SameTasks(loc[p := l], Ideal(cfg.sliceLag, Bound(cfg), c, op))
  {
    var r := Ideal(cfg.sliceLag, Bound(cfg), c, op);
    assert RunningIn(loc[p := l]) == r.running;
  }

  lemma SelectTracks(cfg: Config, s: State, e: Event, c: Clock)
    requires Shape(cfg, s) && CanStep(cfg, s, e) && e.SelectCpu?
    requires Allowed(cfg.topo, s.places.loc, s.tasks)
    requires SameTasks(s.places.loc, c) && Legal(Bound(cfg), c, OpOf(cfg, s, e))
    ensures SameTasks(Step(cfg, s, e).places.loc, IdealStep(cfg, s, e, c))
  {
    var SelectCpu(p, prev, sync, anySmt, anyIdle) := e;
    var cpu, masks := PickedCpu(cfg, s, p, prev, sync, anySmt, anyIdle);
    var l := if cpu >= 0 then Queued(cpu) else Handover;
    assert Step(cfg, s, e).places.loc == s.places.loc[p := l];
    MoveKeepsTasks(cfg, s.places.loc, p, l, c, OpOf(cfg, s, e));
  }

  lemma DispatchTracks(cfg: Config, s: State, e: Event, c: Clock)
    requires Inv(cfg, s) && CanStep(cfg, s, e) && e.Dispatch? && SameTasks(s.places.loc, c)
    ensures SameTasks(Step(cfg, s, e).places.loc, c)
  {
    match SourceOf(cfg, s, e.cpu, e.now)
    case Nowhere =>
    case From(d, _) =>
      var p := ConsumedTask(s, d, e.cpu);
      assert Step(cfg, s, e).places.loc == s.places.loc[p := Local(e.cpu)];
      MoveKeepsTasks(cfg, s.places.loc, p, Local(e.cpu), c, Nothing);
  }

  lemma OtherTracks(cfg: Config, s: State, e: Event, c: Clock)
    requires Shape(cfg, s) && CanStep(cfg, s, e) && !e.SelectCpu? && !e.Dispatch?
    requires SameTasks(s.places.loc, c) && Legal(Bound(cfg), c, OpOf(cfg, s, e))
    ensures SameTasks(Step(cfg, s, e).places.loc, IdealStep(cfg, s, e, c))
  {
    var loc := Step(cfg, s, e).places.loc;
    match e
    case Enqueue(p, taskCpu) =>
      MoveKeepsTasks(cfg, s.places.loc, p, Queued(EnqueueTarget(cfg, s, p, taskCpu)), c, OpOf(cfg, s, e));
    case Run(p) =>
      assert loc == s.places.loc[p := Running(s.places.loc[p].cpu)];
      MoveKeepsTasks(cfg, s.places.loc, p, Running(s.places.loc[p].cpu), c, OpOf(cfg, s, e));
    case Stop(p, _, _, _, runnable) =>
      MoveKeepsTasks(cfg, s.places.loc, p, if runnable then Handover else Asleep, c, OpOf(cfg, s, e));
    case Dequeue(p) =>
      assert loc == s.places.loc[p := Asleep];
      MoveKeepsTasks(cfg, s.places.loc, p, Asleep, c, OpOf(cfg, s, e));
    case KeepLocal(p, cpu) => MoveKeepsTasks(cfg, s.places.loc, p, Local(cpu), c, OpOf(cfg, s, e));
    case InitTask(p, _) => MoveKeepsTasks(cfg, s.places.loc, p, Disabled, c, OpOf(cfg, s, e));
    case Enable(p, _) => MoveKeepsTasks(cfg, s.places.loc, p, Asleep, c, OpOf(cfg, s, e));
    case Disable(p) => MoveKeepsTasks(cfg, s.places.loc, p, Disabled, c, OpOf(cfg, s, e));
    case Activate(p) => MoveKeepsTasks(cfg, s.places.loc, p, Handover, c, OpOf(cfg, s, e));
    case SetMask(_, _) =>
    case IdleMasks(_, _) =>
    case CpuOnline(_) =>
    case CpuOffline(_) =>
  }

  /** Every callback is one legal operation on the integer clock. */
  lemma StepTracks(cfg: Config, s: State, e: Event, c: Clock)
    requires Inv(cfg, s) && CanStep(cfg, s, e) && SameTasks(s.places.loc, c)
    ensures Legal(Bound(cfg), c, OpOf(cfg, s, e))
    ensures SameTasks(Step(cfg, s, e).places.loc, IdealStep(cfg, s, e, c))
  {
    CallbackIsLegal(cfg, s, e, c);
    if e.SelectCpu? {
      SelectTracks(cfg, s, e, c);
    } else if e.Dispatch? {
      DispatchTracks(cfg, s, e, c);
    } else {
      OtherTracks(cfg, s, e, c);
    }
  }

  /** A clamped task is stored as the word of its clamped integer time. */
  lemma PlaceRefines(cfg: Config, s: State, e: Event, c: Clock, p: Pid)
    requires Shape(cfg, s) && CanStep(cfg, s, e) && (e.SelectCpu? || e.Enqueue?) && p == e.p
    requires SameTasks(s.places.loc, c) && Stores(s, c) && Bounded(Bound(cfg), c)
    requires InTime(cfg.sliceLag, c, Place(p))
    ensures TaskVtime(cfg, s, p) == Wrap(Max(c.vtime[p], c.now - cfg.sliceLag))
  {
    WordsAgree(cfg.sliceLag, Bound(cfg), c.now, c.vtime[p]);
  }

  /** What select_cpu comes to, on words and on integers: a task is placed on the CPU that was picked, or nothing
      happens to the clock. */
  lemma SelectIsPlacing(cfg: Config, s: State, e: Event, c: Clock) returns (cpu: int, masks: Masks, x: int)
    requires Shape(cfg, s) && CanStep(cfg, s, e) && e.SelectCpu? && WithinTopology(cfg.topo, s.tasks[e.p].cpus)
    requires SameTasks(s.places.loc, c) && Legal(Bound(cfg), c, OpOf(cfg, s, e))
    ensures Step(cfg, s, e) == PlaceSelected(cfg, if e.sync then SyncWakeup(s, e.p) else s, e.p, cpu, masks)
    ensures IdealStep(cfg, s, e, c) == if cpu >= 0 then c.(vtime := c.vtime[e.p := x]) else c
    ensures OpOf(cfg, s, e) == if cpu >= 0 then Place(e.p) else Nothing
    ensures cpu >= 0 ==> cpu < MAX_CPUS && cpu in s.tasks[e.p].cpus
    ensures e.p in c.vtime && x == Max(c.vtime[e.p], c.now - cfg.sliceLag)
  {
    cpu, masks := PickedCpu(cfg, s, e.p, e.prev, e.sync, e.anySmt, e.anyIdle);
    x := Max(c.vtime[e.p], c.now - cfg.sliceLag);
    assert OpOf(cfg, s, e) == if cpu >= 0 then Place(e.p) else Nothing;
  }

  lemma PlacingRefines(cfg: Config, s: State, c: Clock, p: Pid, sync: bool, cpu: int, masks: Masks, x: int)
    requires Shape(cfg, s) && Known(s, p) && Stores(s, c)
    requires cpu >= 0 ==> cpu < MAX_CPUS && cpu in s.tasks[p].cpus && TaskVtime(cfg, s, p) == Wrap(x)
    ensures Stores(PlaceSelected(cfg, if sync then SyncWakeup(s, p) else s, p, cpu, masks),
                   if cpu >= 0 then c.(vtime := c.vtime[p := x]) else c)
  {
  }

  lemma SelectRefines(cfg: Config, s: State, e: Event, c: Clock)
    requires Shape(cfg, s) && CanStep(cfg, s, e) && e.SelectCpu?
    requires SameTasks(s.places.loc, c) && Stores(s, c) && Bounded(Bound(cfg), c)
    requires InTime(cfg.sliceLag, c, OpOf(cfg, s, e)) && Legal(Bound(cfg), c, OpOf(cfg, s, e))
    requires Allowed(cfg.topo, s.places.loc, s.tasks)
    ensures Stores(Step(cfg, s, e), IdealStep(cfg, s, e, c))
  {
    var cpu, masks, x := SelectIsPlacing(cfg, s, e, c);
    if cpu >= 0 {
      PlaceRefines(cfg, s, e, c, e.p);
    }
    PlacingRefines(cfg, s, c, e.p, e.sync, cpu, masks, x);
  }

  lemma EnqueueIsPlacing(cfg: Config, s: State, e: Event, c: Clock) returns (x: int)
    requires Shape(cfg, s) && CanStep(cfg, s, e) && e.Enqueue?
    requires SameTasks(s.places.loc, c) && Legal(Bound(cfg), c, OpOf(cfg, s, e))
    ensures Step(cfg, s, e) == EnqueueStep(cfg, s, e.p, e.taskCpu)
    ensures IdealStep(cfg, s, e, c) == c.(vtime := c.vtime[e.p := x])
    ensures e.p in c.vtime && x == Max(c.vtime[e.p], c.now - cfg.sliceLag)
  {
    x := Max(c.vtime[e.p], c.now - cfg.sliceLag);
  }

  lemma EnqueueRefines(cfg: Config, s: State, e: Event, c: Clock)
    requires Shape(cfg, s) && CanStep(cfg, s, e) && e.Enqueue?
    requires SameTasks(s.places.loc, c) && Stores(s, c) && Bounded(Bound(cfg), c)
    requires InTime(cfg.sliceLag, c, OpOf(cfg, s, e)) && Legal(Bound(cfg), c, OpOf(cfg, s, e))
    ensures Stores(Step(cfg, s, e), IdealStep(cfg, s, e, c))
  {
    PlaceRefines(cfg, s, e, c, e.p);
  }

  lemma RunRefines(cfg: Config, s: State, p: Pid, c: Clock)
    requires Shape(cfg, s) && Known(s, p) && s.places.loc[p].Local?
    requires SameTasks(s.places.loc, c) && Stores(s, c) && Bounded(Bound(cfg), c)
    requires InTime(cfg.sliceLag, c, Advance(p)) && Legal(Bound(cfg), c, Advance(p))
    ensures Stores(RunStep(cfg, s, p), Ideal(cfg.sliceLag, Bound(cfg), c, Advance(p)))
  {
    WordsAgree(cfg.sliceLag, Bound(cfg), c.now, c.vtime[p]);
  }

  lemma StopRefines(cfg: Config, s: State, p: Pid, now: U64, sliceLeft: U64, nvcsw: U64, runnable: bool,
                    c: Clock, amount: nat)
    requires Shape(cfg, s) && Known(s, p) && SameTasks(s.places.loc, c) && Stores(s, c)
    requires amount == ChargeOf(cfg, sliceLeft, s.tasks[p].weight) && Legal(Bound(cfg), c, Charge(p, amount))
    ensures Stores(StopStep(cfg, s, p, now, sliceLeft, nvcsw, runnable),
                   Ideal(cfg.sliceLag, Bound(cfg), c, Charge(p, amount)))
  {
    WrapOfSum(c.vtime[p], amount);
  }

  /** One callback on words is the image of the clock operation on integers. */
  lemma StepRefines(cfg: Config, s: State, e: Event, c: Clock)
    requires Shape(cfg, s) && CanStep(cfg, s, e)
    requires SameTasks(s.places.loc, c) && Stores(s, c) && Bounded(Bound(cfg), c)
    requires InTime(cfg.sliceLag, c, OpOf(cfg, s, e)) && Legal(Bound(cfg), c, OpOf(cfg, s, e))
    requires Allowed(cfg.topo, s.places.loc, s.tasks)
    ensures Stores(Step(cfg, s, e), IdealStep(cfg, s, e, c))
  {
    if e.SelectCpu? {
      SelectRefines(cfg, s, e, c);
    } else if e.Enqueue? {
      EnqueueRefines(cfg, s, e, c);
    } else if e.Run? {
      RunRefines(cfg, s, e.p, c);
    } else if e.Stop? {
      StopRefines(cfg, s, e.p, e.now, e.sliceLeft, e.nvcsw, e.runnable, c,
                  ChargeOf(cfg, e.sliceLeft, s.tasks[e.p].weight));
    }
  }

  // Runs

  /** The clock of the same run on unbounded integers. */
  ghost function IdealClock(cfg: Config, s: State, es: seq<Event>): (c: Clock)
    requires RunsFromStart(cfg, s, es)
    ensures SameTasks(After(cfg, s, es).places.loc, c)
  {
    if es == [] then START
    else
      var t := After(cfg, s, es[..|es| - 1]);
      var c := IdealClock(cfg, s, es[..|es| - 1]);
      StepTracks(cfg, t, es[|es| - 1], c);
      IdealStep(cfg, t, es[|es| - 1], c)
  }

  /** On the integer clock, a task is at most one full charge ahead of the global time, and a running task
      not at all. */
  lemma {:induction false} IdealTimesAreBounded(cfg: Config, s: State, es: seq<Event>)
    requires RunsFromStart(cfg, s, es)
    ensures Bounded(Bound(cfg), IdealClock(cfg, s, es))
  {
    if es == [] {
    } else {
      var t := After(cfg, s, es[..|es| - 1]);
      var c := IdealClock(cfg, s, es[..|es| - 1]);
      IdealTimesAreBounded(cfg, s, es[..|es| - 1]);
      StepTracks(cfg, t, es[|es| - 1], c);
      BoundedPreserved(cfg.sliceLag, Bound(cfg), c, OpOf(cfg, t, es[|es| - 1]));
    }
  }

  /** Each task is in time when it is dispatched and when it starts to run. How far behind it is otherwise
      does not matter. */
  ghost predicate NeverLags(cfg: Config, s: State, es: seq<Event>)
    requires RunsFromStart(cfg, s, es)
  {
    es == [] || (NeverLags(cfg, s, es[..|es| - 1]) && LastInTime(cfg, s, es))
  }

  ghost predicate LastInTime(cfg: Config, s: State, es: seq<Event>)
    requires RunsFromStart(cfg, s, es) && es != []
  {
    var front := es[..|es| - 1];
    InTime(cfg.sliceLag, IdealClock(cfg, s, front), OpOf(cfg, After(cfg, s, front), es[|es| - 1]))
  }

  /** The u64 scheduler simulates the integer one: as long as tasks are in time, every stored time is the word of
      the integer time. This covers the start, where `vtime_now - slice_ns_lag` wraps below zero. */
  lemma {:induction false} WordsRefineIntegers(cfg: Config, s: State, es: seq<Event>)
    requires RunsFromStart(cfg, s, es) && NeverLags(cfg, s, es)
    ensures Stores(After(cfg, s, es), IdealClock(cfg, s, es))
  {
    if es == [] {
    } else {
      var t := After(cfg, s, es[..|es| - 1]);
      var c := IdealClock(cfg, s, es[..|es| - 1]);
      WordsRefineIntegers(cfg, s, es[..|es| - 1]);
      IdealTimesAreBounded(cfg, s, es[..|es| - 1]);
      StepTracks(cfg, t, es[|es| - 1], c);
      StepRefines(cfg, t, es[|es| - 1], c);
    }
  }

  // The premise is exact

  /** The clamped word is the word of the clamped integer exactly if the task is in time. */
  lemma PlaceRefinesIff(cfg: Config, s: State, p: Pid, c: Clock)
    requires ValidConfig(cfg) && Known(s, p) && p in c.vtime && Stores(s, c) && Bounded(Bound(cfg), c)
    requires WithinCircle(cfg.sliceLag, c, Place(p))
    ensures TaskVtime(cfg, s, p) == Wrap(Max(c.vtime[p], c.now - cfg.sliceLag)) <==> InTime(cfg.sliceLag, c, Place(p))
  {
    ClampIsRightIff(cfg.sliceLag, c.now, c.vtime[p]);
  }

  lemma LatePlacingFails(cfg: Config, s: State, c: Clock, p: Pid, sync: bool, cpu: int, masks: Masks, x: int)
    requires Shape(cfg, s) && Known(s, p) && TaskVtime(cfg, s, p) != Wrap(x)
    requires 0 <= cpu < MAX_CPUS && cpu in s.tasks[p].cpus
    ensures !Stores(PlaceSelected(cfg, if sync then SyncWakeup(s, p) else s, p, cpu, masks),
                    c.(vtime := c.vtime[p := x]))
  {
    var t := PlaceSelected(cfg, if sync then SyncWakeup(s, p) else s, p, cpu, masks);
    assert p in t.tasks && t.tasks[p].vtime == TaskVtime(cfg, s, p);
  }

  lemma LateSelectFails(cfg: Config, s: State, e: Event, c: Clock)
    requires Shape(cfg, s) && CanStep(cfg, s, e) && e.SelectCpu? && Allowed(cfg.topo, s.places.loc, s.tasks)
    requires SameTasks(s.places.loc, c) && Stores(s, c) && Bounded(Bound(cfg), c)
    requires Legal(Bound(cfg), c, OpOf(cfg, s, e)) && WithinCircle(cfg.sliceLag, c, OpOf(cfg, s, e))
    requires !InTime(cfg.sliceLag, c, OpOf(cfg, s, e))
    ensures !Stores(Step(cfg, s, e), IdealStep(cfg, s, e, c))
  {
    var cpu, masks, x := SelectIsPlacing(cfg, s, e, c);
    PlaceRefinesIff(cfg, s, e.p, c);
    LatePlacingFails(cfg, s, c, e.p, e.sync, cpu, masks, x);
  }

  lemma LateEnqueueFails(cfg: Config, s: State, e: Event, c: Clock)
    requires Shape(cfg, s) && CanStep(cfg, s, e) && e.Enqueue?
    requires SameTasks(s.places.loc, c) && Stores(s, c) && Bounded(Bound(cfg), c)
    requires Legal(Bound(cfg), c, OpOf(cfg, s, e)) && WithinCircle(cfg.sliceLag, c, OpOf(cfg, s, e))
    requires !InTime(cfg.sliceLag, c, OpOf(cfg, s, e))
    ensures !Stores(Step(cfg, s, e), IdealStep(cfg, s, e, c))
  {
    PlaceRefinesIff(cfg, s, e.p, c);
    assert EnqueueStep(cfg, s, e.p, e.taskCpu).tasks[e.p].vtime == TaskVtime(cfg, s, e.p);
  }

  lemma LateRunFails(cfg: Config, s: State, p: Pid, c: Clock)
    requires Shape(cfg, s) && Known(s, p) && s.places.loc[p].Local?
    requires SameTasks(s.places.loc, c) && Stores(s, c) && Bounded(Bound(cfg), c) && Legal(Bound(cfg), c, Advance(p))
    requires WithinCircle(cfg.sliceLag, c, Advance(p)) && !InTime(cfg.sliceLag, c, Advance(p))
    ensures !Stores(RunStep(cfg, s, p), Ideal(cfg.sliceLag, Bound(cfg), c, Advance(p)))
  {
    AdvanceIsRightIff(c.now, c.vtime[p]);
  }

  /** A callback on words is the image of the clock operation exactly if the task is in time. */
  lemma StepRefinesIff(cfg: Config, s: State, e: Event, c: Clock)
    requires Shape(cfg, s) && CanStep(cfg, s, e) && Allowed(cfg.topo, s.places.loc, s.tasks)
    requires SameTasks(s.places.loc, c) && Stores(s, c) && Bounded(Bound(cfg), c)
    requires Legal(Bound(cfg), c, OpOf(cfg, s, e)) && WithinCircle(cfg.sliceLag, c, OpOf(cfg, s, e))
    ensures Stores(Step(cfg, s, e), IdealStep(cfg, s, e, c)) <==> InTime(cfg.sliceLag, c, OpOf(cfg, s, e))
  {
    if InTime(cfg.sliceLag, c, OpOf(cfg, s, e)) {
      StepRefines(cfg, s, e, c);
    } else if e.SelectCpu? {
      LateSelectFails(cfg, s, e, c);
    } else if e.Enqueue? {
      LateEnqueueFails(cfg, s, e, c);
    } else {
      LateRunFails(cfg, s, e.p, c);
    }
  }

  ghost predicate AlwaysWithinCircle(cfg: Config, s: State, es: seq<Event>)
    requires RunsFromStart(cfg, s, es)
  {
    es == [] || (
      && AlwaysWithinCircle(cfg, s, es[..|es| - 1])
      && var front := es[..|es| - 1];
         WithinCircle(cfg.sliceLag, IdealClock(cfg, s, front), OpOf(cfg, After(cfg, s, front), es[|es| - 1])))
  }

  /** At every point of the run the stored times are the words of the integers. */
  ghost predicate AlwaysStores(cfg: Config, s: State, es: seq<Event>)
    requires RunsFromStart(cfg, s, es)
  {
    Stores(After(cfg, s, es), IdealClock(cfg, s, es)) && (es == [] || AlwaysStores(cfg, s, es[..|es| - 1]))
  }

  /** So among the runs in which no task that is dispatched or starts to run lags by a full circle, the u64
      scheduler simulates the integer one in exactly those in which they are all in time. */
  lemma {:induction false} WordsRefineIntegersIff(cfg: Config, s: State, es: seq<Event>)
    requires RunsFromStart(cfg, s, es) && AlwaysWithinCircle(cfg, s, es)
    ensures AlwaysStores(cfg, s, es) <==> NeverLags(cfg, s, es)
  {
    if es == [] {
    } else {
      var front := es[..|es| - 1];
      var t, c := After(cfg, s, front), IdealClock(cfg, s, front);
      WordsRefineIntegersIff(cfg, s, front);
      if AlwaysStores(cfg, s, front) {
        IdealTimesAreBounded(cfg, s, front);
        StepTracks(cfg, t, es[|es| - 1], c);
        StepRefinesIff(cfg, t, es[|es| - 1], c);
      }
    }
  }

  // What the words say

  predicate NotLagging(c: Clock, p: Pid) {
    p in c.vtime && c.now - TWO63 < c.vtime[p]
  }

  /** So each comparison made by task_vtime and by running is the comparison of the integers. */
  lemma ComparisonsAreExact(cfg: Config, s: State, es: seq<Event>, p: Pid)
    requires RunsFromStart(cfg, s, es)
    requires NeverLags(cfg, s, es) && p in After(cfg, s, es).tasks && NotLagging(IdealClock(cfg, s, es), p)
    ensures var t, c := After(cfg, s, es), IdealClock(cfg, s, es);
            ComparesAs(cfg.sliceLag, t.vtimeNow, t.tasks[p].vtime, c.now, c.vtime[p])
  {
    WordsRefineIntegers(cfg, s, es);
    IdealTimesAreBounded(cfg, s, es);
    var t, c := After(cfg, s, es), IdealClock(cfg, s, es);
    StoredWordsCompare(cfg.sliceLag, Bound(cfg), c, p, t.vtimeNow, t.tasks[p].vtime);
  }

  /** The signed difference between the stored time of a task and the stored vtime_now is the difference of
      the integers: at most one full charge, and for a running task never positive. */
  ghost predicate StoredWithinBound(cfg: Config, t: State, c: Clock, p: Pid) {
    && Known(t, p) && p in c.vtime
    && AsSigned(Wrap(t.tasks[p].vtime - t.vtimeNow)) == c.vtime[p] - c.now
    && AsSigned(Wrap(t.tasks[p].vtime - t.vtimeNow)) <= if t.places.loc[p].Running? then 0 else Bound(cfg)
  }

  lemma StateIsBounded(cfg: Config, t: State, c: Clock, p: Pid)
    requires ValidConfig(cfg) && SameTasks(t.places.loc, c) && Stores(t, c) && Bounded(Bound(cfg), c)
    requires Known(t, p) && t.places.loc[p] != Disabled && NotLagging(c, p)
    ensures StoredWithinBound(cfg, t, c, p)
  {
    StoredTimeIsBounded(Bound(cfg), c, p, t.vtimeNow, t.tasks[p].vtime);
  }

  /** In every such run the stored time of every enabled task that does not lag by half a circle is within that
      bound. */
  lemma VtimeIsBounded(cfg: Config, s: State, es: seq<Event>, p: Pid)
    requires RunsFromStart(cfg, s, es) && NeverLags(cfg, s, es) && NotLagging(IdealClock(cfg, s, es), p)
    requires Known(After(cfg, s, es), p) && After(cfg, s, es).places.loc[p] != Disabled
    ensures StoredWithinBound(cfg, After(cfg, s, es), IdealClock(cfg, s, es), p)
  {
    WordsRefineIntegers(cfg, s, es);
    IdealTimesAreBounded(cfg, s, es);
    StateIsBounded(cfg, After(cfg, s, es), IdealClock(cfg, s, es), p);
  }

  /** The stored vtime_now has gone forward from state t to state u, by one full charge at most, and so has the
      integer one. */
  ghost predicate ClockAdvanced(cfg: Config, t: State, c: Clock, u: State, d: Clock) {
    && 0 <= AsSigned(Wrap(u.vtimeNow - t.vtimeNow)) == d.now - c.now <= Bound(cfg)
    && t.vtimeNow == Wrap(c.now) && u.vtimeNow == Wrap(d.now)
  }

  lemma OperationAdvancesClock(cfg: Config, t: State, c: Clock, u: State, op: Op)
    requires ValidConfig(cfg) && Bounded(Bound(cfg), c) && Legal(Bound(cfg), c, op)
    requires t.vtimeNow == Wrap(c.now) && u.vtimeNow == Wrap(Ideal(cfg.sliceLag, Bound(cfg), c, op).now)
    ensures ClockAdvanced(cfg, t, c, u, Ideal(cfg.sliceLag, Bound(cfg), c, op))
  {
    OperationAdvances(cfg.sliceLag, Bound(cfg), c, op);
  }

  /** Each step of such a run takes vtime_now forward by one full charge at most, or leaves it. */
  lemma StepAdvancesClock(cfg: Config, s: State, es: seq<Event>)
    requires RunsFromStart(cfg, s, es) && NeverLags(cfg, s, es) && es != []
    ensures ClockAdvanced(cfg, After(cfg, s, es[..|es| - 1]), IdealClock(cfg, s, es[..|es| - 1]),
                          After(cfg, s, es), IdealClock(cfg, s, es))
  {
    var front := es[..|es| - 1];
    var t, c := After(cfg, s, front), IdealClock(cfg, s, front);
    WordsRefineIntegers(cfg, s, front);
    WordsRefineIntegers(cfg, s, es);
    IdealTimesAreBounded(cfg, s, front);
    StepTracks(cfg, t, es[|es| - 1], c);
    OperationAdvancesClock(cfg, t, c, After(cfg, s, es), OpOf(cfg, t, es[|es| - 1]));
  }

  /** The stored words of vtime_now in two states are those of two integers, the second at least as large. */
  ghost predicate NotBack(t: State, c: Clock, u: State, d: Clock) {
    t.vtimeNow == Wrap(c.now) && u.vtimeNow == Wrap(d.now) && c.now <= d.now
  }

  lemma StillNotBack(cfg: Config, t: State, c: Clock, u: State, d: Clock, u': State, d': Clock)
    requires NotBack(t, c, u, d) && ClockAdvanced(cfg, u, d, u', d')
    ensures NotBack(t, c, u', d')
  {
  }

  /** So at any two points of such a run vtime_now has not gone back. */
  lemma {:induction false} VtimeNowIsMonotone(cfg: Config, s: State, es: seq<Event>, k: nat)
    requires RunsFromStart(cfg, s, es) && NeverLags(cfg, s, es) && k <= |es|
    ensures RunsFromStart(cfg, s, es[..k])
    ensures NotBack(After(cfg, s, es[..k]), IdealClock(cfg, s, es[..k]), After(cfg, s, es), IdealClock(cfg, s, es))
  {
    if k == |es| {
      assert es[..k] == es;
      WordsRefineIntegers(cfg, s, es);
    } else {
      var front := es[..|es| - 1];
      PrefixOfFront(es, k);
      VtimeNowIsMonotone(cfg, s, front, k);
      StepAdvancesClock(cfg, s, es);
      StillNotBack(cfg, After(cfg, s, es[..k]), IdealClock(cfg, s, es[..k]),
                   After(cfg, s, front), IdealClock(cfg, s, front), After(cfg, s, es), IdealClock(cfg, s, es));
    }
  }
}
