/** What every step of the vruntime scheduler keeps. */
module VruntimeInvariants {
  import opened Words
  import opened Placement
  import opened IdleCpu
  import opened Vruntime

  /** The tasks on a CPU, and those of them flagged interactive. */
  ghost function RunningIn(loc: map<Pid, Loc>): set<Pid> {
    set p | p in loc && loc[p].Running?
  }

  ghost function InteractiveIn(loc: map<Pid, Loc>, tasks: map<Pid, Task>): set<Pid> {
    set p | p in loc && loc[p].Running? && p in tasks && tasks[p].ctx.interactive
  }

  /** A cpumask allows a place: the DSQ of a CPU, its local DSQ and the CPU itself need the CPU in it. */
  predicate Fits(a: Task, l: Loc) {
    match l
    case Queued(d) => d < MAX_CPUS ==> d in a.cpus
    case Local(c) => c in a.cpus
    case Running(c) => c in a.cpus
    case _ => true
  }

  /** Every task is where its cpumask lets it be. */
  ghost predicate Allowed(t: Topology, loc: map<Pid, Loc>, tasks: map<Pid, Task>) {
    forall p :: p in loc && p in tasks ==>
      tasks[p].weight >= 1 && WithinTopology(t, tasks[p].cpus) && Fits(tasks[p], loc[p])
  }

  /** The counters nr_running and nr_interactive count the tasks on CPUs. */
  ghost predicate Accounted(s: State) {
    && s.nrRunning == |RunningIn(s.places.loc)|
    && s.nrInteractive == |InteractiveIn(s.places.loc, s.tasks)|
  }

  ghost predicate HotplugTracked(cfg: Config, s: State) {
    && WithinTopology(cfg.topo, s.masks.online) && WithinTopology(cfg.topo, s.offline)
    && s.nrOnline == |s.masks.online|
    && s.offline !! s.masks.online
  }

  ghost predicate Timed(s: State) {
    s.sharedTs <= s.ktime && s.prioTs <= s.ktime && s.ktime < TWO63
  }

  ghost predicate Inv(cfg: Config, s: State) {
    && Shape(cfg, s)
    && WellPlaced(s.places)
    && Allowed(cfg.topo, s.places.loc, s.tasks)
    && Accounted(s)
    && HotplugTracked(cfg, s)
    && Timed(s)
  }

  lemma InitialInv(cfg: Config, s: State)
    requires Initial(cfg, s)
    ensures Inv(cfg, s)
  {
    assert RunningIn(s.places.loc) == {} && InteractiveIn(s.places.loc, s.tasks) == {};
  }

  // Where each step moves tasks

  /** A step that moves task p to place l, leaving the rest of the places as they are. */
  ghost predicate Moves(cfg: Config, s: State, t: State, p: Pid, l: Loc) {
    && Shape(cfg, t) && WellPlaced(t.places)
    && t.places.loc == s.places.loc[p := l]
  }

  /** The CPU picked by select_cpu is no CPU or one the task may use. */
  lemma PickedCpu(cfg: Config, s: State, p: Pid, prev: int, sync: bool, anySmt: int, anyIdle: int)
      returns (cpu: int, masks: Masks)
    requires Shape(cfg, s) && p in s.tasks && WithinTopology(cfg.topo, s.tasks[p].cpus)
    requires CanStep(cfg, s, SelectCpu(p, prev, sync, anySmt, anyIdle))
    ensures (cpu, masks) == PickIdle(cfg.topo, cfg.smtEnabled, s.masks, s.tasks[p].cpus, prev, anySmt, anyIdle)
    ensures cpu >= 0 ==> cpu < MAX_CPUS && cpu in s.tasks[p].cpus
    ensures masks.online == s.masks.online
    ensures cpu >= 0 ==> cpu in s.masks.idle && masks.idle == s.masks.idle - {cpu}
    ensures cpu < 0 ==> masks.idle == s.masks.idle
    ensures SelectStep(cfg, s, p, prev, sync, anySmt, anyIdle)
         == PlaceSelected(cfg, if sync then SyncWakeup(s, p) else s, p, cpu, masks)
  {
    PickIsSound(cfg.topo, cfg.smtEnabled, s.masks, s.tasks[p].cpus, prev, anySmt, anyIdle);
    var picked := PickIdle(cfg.topo, cfg.smtEnabled, s.masks, s.tasks[p].cpus, prev, anySmt, anyIdle);
    cpu, masks := picked.0, picked.1;
  }

  /** The task consumption would take is in the queue it is taken from, and may run on the CPU. */
  lemma ConsumedTask(s: State, d: nat, cpu: nat) returns (p: Pid)
    requires WellPlaced(s.places) && d < |s.places.dsqs| && cpu < |s.places.local| && Ready(s, d, cpu)
    ensures p == NextTask(s, d, cpu)
    ensures Is(s, p, Queued(d)) && p in s.tasks && cpu in s.tasks[p].cpus
    ensures Consume(s, d, cpu).places == AttachLocal(Detach(s.places, p), p, cpu, |s.places.local[cpu]|)
    ensures Consume(s, d, cpu).places.loc == s.places.loc[p := Local(cpu)]
    ensures WellPlaced(Consume(s, d, cpu).places)
    ensures |Consume(s, d, cpu).places.dsqs| == |s.places.dsqs|
    ensures |Consume(s, d, cpu).places.local| == |s.places.local|
  {
    CountIsMembership(s.places);
    p := NextTask(s, d, cpu);
    assert p in s.places.dsqs[d];
    DetachKeeps(s.places, p);
    AttachLocalKeeps(Detach(s.places, p), p, cpu, |s.places.local[cpu]|);
  }

  lemma DispatchVtimeMoves(cfg: Config, s: State, p: Pid, d: nat, slice: U64, v: U64)
    requires Shape(cfg, s) && WellPlaced(s.places)
    requires Known(s, p) && OutOfQueues(s.places, p) && d < DSQ_COUNT
    ensures Moves(cfg, s, DispatchVtime(s, p, d, slice, v), p, Queued(d))
  {
    AttachDsqKeeps(s.places, p, d, InsertPos(s.places.dsqs[d], s.tasks, v));
  }

  lemma RelabelMoves(cfg: Config, s: State, t: State, p: Pid, l: Loc)
    requires Shape(cfg, s) && WellPlaced(s.places) && OutOfQueues(s.places, p)
    requires !l.InQueue() && !l.Running?
    requires t.places == Relabel(s.places, p, l)
    requires forall q :: q in t.tasks <==> q in s.tasks || q == p
    ensures Moves(cfg, s, t, p, l)
  {
    RelabelKeeps(s.places, p, l);
  }

  lemma RunMoves(cfg: Config, s: State, p: Pid)
    requires Shape(cfg, s) && WellPlaced(s.places) && CanStep(cfg, s, Run(p))
    ensures Moves(cfg, s, RunStep(cfg, s, p), p, Running(s.places.loc[p].cpu))
  {
    var cpu := s.places.loc[p].cpu;
    DetachKeeps(s.places, p);
    RelabelKeeps(Detach(s.places, p), p, Running(cpu));
  }

  // What the moves keep

  /** A move on to no CPU of a task that was on none, which keeps the tasks on CPUs as they are. */
  lemma MoveOffCpus(cfg: Config, s: State, t: State, p: Pid, l: Loc)
    requires Inv(cfg, s) && Moves(cfg, s, t, p, l)
    requires p in s.places.loc ==> !s.places.loc[p].Running?
    requires !l.Running?
    requires p in t.tasks && t.tasks == s.tasks[p := t.tasks[p]]
    requires t.tasks[p].weight >= 1 && WithinTopology(cfg.topo, t.tasks[p].cpus) && Fits(t.tasks[p], l)
    requires t.nrRunning == s.nrRunning && t.nrInteractive == s.nrInteractive
    requires HotplugTracked(cfg, t) && Timed(t)
    ensures Inv(cfg, t)
  {
    assert RunningIn(t.places.loc) == RunningIn(s.places.loc);
    assert InteractiveIn(t.places.loc, t.tasks) == InteractiveIn(s.places.loc, s.tasks);
  }

  lemma PlaceSelectedKeeps(cfg: Config, s: State, p: Pid, cpu: int, masks: Masks)
    requires Inv(cfg, s) && Is(s, p, Asleep) && Known(s, p)
    requires cpu >= 0 ==> cpu < MAX_CPUS && cpu in s.tasks[p].cpus
    requires masks.online == s.masks.online
    ensures Inv(cfg, PlaceSelected(cfg, s, p, cpu, masks))
  {
    var t := PlaceSelected(cfg, s, p, cpu, masks);
    if cpu >= 0 {
      DispatchVtimeMoves(cfg, s, p, cpu, TaskSlice(cfg, s.tasks[p].slice), TaskVtime(cfg, s, p));
      MoveOffCpus(cfg, s, t, p, Queued(cpu));
    } else {
      RelabelMoves(cfg, s, t, p, Handover);
      MoveOffCpus(cfg, s, t, p, Handover);
    }
  }

  lemma SyncWakeupKeeps(cfg: Config, s: State, p: Pid)
    requires Inv(cfg, s) && Is(s, p, Asleep) && Known(s, p)
    ensures Inv(cfg, SyncWakeup(s, p))
  {
    assert InteractiveIn(s.places.loc, SyncWakeup(s, p).tasks) == InteractiveIn(s.places.loc, s.tasks);
  }

  lemma SelectKeeps(cfg: Config, s: State, p: Pid, prev: int, sync: bool, anySmt: int, anyIdle: int)
    requires Inv(cfg, s) && CanStep(cfg, s, SelectCpu(p, prev, sync, anySmt, anyIdle))
    ensures Inv(cfg, SelectStep(cfg, s, p, prev, sync, anySmt, anyIdle))
  {
    var cpu, masks := PickedCpu(cfg, s, p, prev, sync, anySmt, anyIdle);
    var s1 := if sync then SyncWakeup(s, p) else s;
    SyncWakeupKeeps(cfg, s, p);
    PlaceSelectedKeeps(cfg, s1, p, cpu, masks);
  }

  lemma EnqueueKeeps(cfg: Config, s: State, p: Pid, taskCpu: nat)
    requires Inv(cfg, s) && CanStep(cfg, s, Enqueue(p, taskCpu))
    ensures Inv(cfg, EnqueueStep(cfg, s, p, taskCpu))
  {
    var d := EnqueueTarget(cfg, s, p, taskCpu);
    DispatchVtimeMoves(cfg, s, p, d, TaskSlice(cfg, s.tasks[p].slice), TaskVtime(cfg, s, p));
    MoveOffCpus(cfg, s, EnqueueStep(cfg, s, p, taskCpu), p, Queued(d));
  }

  lemma DispatchKeeps(cfg: Config, s: State, cpu: nat, now: U64)
    requires Inv(cfg, s) && CanStep(cfg, s, Dispatch(cpu, now))
    ensures Inv(cfg, DispatchStep(cfg, s, cpu, now))
  {
    match SourceOf(cfg, s, cpu, now)
    case Nowhere =>
    case From(d, _) =>
      var p := ConsumedTask(s, d, cpu);
      MoveOffCpus(cfg, s, DispatchStep(cfg, s, cpu, now), p, Local(cpu));
  }

  lemma OneMoreRunning(loc: map<Pid, Loc>, tasks: map<Pid, Task>, p: Pid, task: Task, cpu: nat)
    requires p in loc && !loc[p].Running? && p in tasks && task.ctx == tasks[p].ctx
    ensures |RunningIn(loc[p := Running(cpu)])| == |RunningIn(loc)| + 1
    ensures |InteractiveIn(loc[p := Running(cpu)], tasks[p := task])|
         == |InteractiveIn(loc, tasks)| + if task.ctx.interactive then 1 else 0
  {
    assert RunningIn(loc[p := Running(cpu)]) == RunningIn(loc) + {p};
    assert InteractiveIn(loc[p := Running(cpu)], tasks[p := task])
        == InteractiveIn(loc, tasks) + if task.ctx.interactive then {p} else {};
  }

  lemma RunKeeps(cfg: Config, s: State, p: Pid)
    requires Inv(cfg, s) && CanStep(cfg, s, Run(p))
    ensures Inv(cfg, RunStep(cfg, s, p))
  {
    RunMoves(cfg, s, p);
    var t := RunStep(cfg, s, p);
    OneMoreRunning(s.places.loc, s.tasks, p, t.tasks[p], s.places.loc[p].cpu);
    assert Accounted(t);
    assert Allowed(cfg.topo, t.places.loc, t.tasks);
  }

  lemma OneLessRunning(loc: map<Pid, Loc>, tasks: map<Pid, Task>, p: Pid, task: Task, l: Loc)
    requires p in loc && loc[p].Running? && p in tasks && !l.Running?
    ensures |RunningIn(loc[p := l])| == |RunningIn(loc)| - 1
    ensures |InteractiveIn(loc[p := l], tasks[p := task])|
         == |InteractiveIn(loc, tasks)| - if tasks[p].ctx.interactive then 1 else 0
  {
    assert RunningIn(loc[p := l]) == RunningIn(loc) - {p};
    assert InteractiveIn(loc[p := l], tasks[p := task]) == InteractiveIn(loc, tasks) - {p};
    assert p in InteractiveIn(loc, tasks) <==> tasks[p].ctx.interactive;
  }

  lemma StopKeeps(cfg: Config, s: State, p: Pid, now: U64, sliceLeft: U64, nvcsw: U64, runnable: bool)
    requires Inv(cfg, s) && CanStep(cfg, s, Stop(p, now, sliceLeft, nvcsw, runnable))
    ensures Inv(cfg, StopStep(cfg, s, p, now, sliceLeft, nvcsw, runnable))
  {
    var t := StopStep(cfg, s, p, now, sliceLeft, nvcsw, runnable);
    var l := if runnable then Handover else Asleep;
    RelabelMoves(cfg, s, t, p, l);
    OneLessRunning(s.places.loc, s.tasks, p, t.tasks[p], l);
    assert Accounted(t);
    assert Allowed(cfg.topo, t.places.loc, t.tasks);
  }

  lemma RelabelKept(cfg: Config, s: State, e: Event, t: State)
    requires Inv(cfg, s) && CanStep(cfg, s, e) && t == Step(cfg, s, e)
    requires e.InitTask? || e.Enable? || e.Disable? || e.Activate?
    ensures Inv(cfg, t)
  {
    var l := if e.Enable? then Asleep else if e.Activate? then Handover else Disabled;
    RelabelMoves(cfg, s, t, e.p, l);
    MoveOffCpus(cfg, s, t, e.p, l);
  }

  lemma KeepLocalKept(cfg: Config, s: State, p: Pid, cpu: nat)
    requires Inv(cfg, s) && CanStep(cfg, s, KeepLocal(p, cpu))
    ensures Inv(cfg, Step(cfg, s, KeepLocal(p, cpu)))
  {
    AttachLocalKeeps(s.places, p, cpu, 0);
    MoveOffCpus(cfg, s, Step(cfg, s, KeepLocal(p, cpu)), p, Local(cpu));
  }

  lemma DequeueKept(cfg: Config, s: State, p: Pid)
    requires Inv(cfg, s) && CanStep(cfg, s, Dequeue(p))
    ensures Inv(cfg, Step(cfg, s, Dequeue(p)))
  {
    DetachKeeps(s.places, p);
    RelabelKeeps(Detach(s.places, p), p, Asleep);
    MoveOffCpus(cfg, s, Step(cfg, s, Dequeue(p)), p, Asleep);
  }

  lemma NewMaskAllowed(t: Topology, loc: map<Pid, Loc>, tasks: map<Pid, Task>, p: Pid, cpus: set<nat>)
    requires Allowed(t, loc, tasks) && p in loc && p in tasks && !loc[p].InQueue() && !loc[p].Running?
    requires WithinTopology(t, cpus)
    ensures Allowed(t, loc, tasks[p := tasks[p].(cpus := cpus)])
    ensures InteractiveIn(loc, tasks[p := tasks[p].(cpus := cpus)]) == InteractiveIn(loc, tasks)
  {
  }

  lemma SetMaskKept(cfg: Config, s: State, p: Pid, cpus: set<nat>)
    requires Inv(cfg, s) && CanStep(cfg, s, SetMask(p, cpus))
    ensures Inv(cfg, Step(cfg, s, SetMask(p, cpus)))
  {
    NewMaskAllowed(cfg.topo, s.places.loc, s.tasks, p, cpus);
  }

  lemma HotplugCounts(s: State, e: Event)
    requires (e.CpuOnline? && e.c !in s.masks.online) || (e.CpuOffline? && e.c in s.masks.online)
    ensures e.CpuOnline? ==> |s.masks.online + {e.c}| == |s.masks.online| + 1
    ensures e.CpuOffline? ==> |s.masks.online - {e.c}| == |s.masks.online| - 1
  {
  }

  lemma HotplugKept(cfg: Config, s: State, e: Event)
    requires Inv(cfg, s) && CanStep(cfg, s, e)
    requires e.IdleMasks? || e.CpuOnline? || e.CpuOffline?
    ensures Inv(cfg, Step(cfg, s, e))
  {
    var t := Step(cfg, s, e);
    if !e.IdleMasks? {
      HotplugCounts(s, e);
    }
    assert t.places == s.places && t.tasks == s.tasks;
    assert HotplugTracked(cfg, t);
  }

  /** Every step of the scheduler keeps the invariant. */
  lemma StepKeeps(cfg: Config, s: State, e: Event)
    requires Inv(cfg, s) && CanStep(cfg, s, e)
    ensures Inv(cfg, Step(cfg, s, e))
  {
    match e
    case SelectCpu(p, prev, sync, anySmt, anyIdle) => SelectKeeps(cfg, s, p, prev, sync, anySmt, anyIdle);
    case Enqueue(p, taskCpu) => EnqueueKeeps(cfg, s, p, taskCpu);
    case Dispatch(cpu, now) => DispatchKeeps(cfg, s, cpu, now);
    case Run(p) => RunKeeps(cfg, s, p);
    case Stop(p, now, sliceLeft, nvcsw, runnable) => StopKeeps(cfg, s, p, now, sliceLeft, nvcsw, runnable);
    case KeepLocal(p, cpu) => KeepLocalKept(cfg, s, p, cpu);
    case Dequeue(p) => DequeueKept(cfg, s, p);
    case InitTask(_, _) => RelabelKept(cfg, s, e, Step(cfg, s, e));
    case Enable(_, _) => RelabelKept(cfg, s, e, Step(cfg, s, e));
    case Disable(_) => RelabelKept(cfg, s, e, Step(cfg, s, e));
    case Activate(_) => RelabelKept(cfg, s, e, Step(cfg, s, e));
    case SetMask(p, cpus) => SetMaskKept(cfg, s, p, cpus);
    case _ => HotplugKept(cfg, s, e);
  }

  // Runs

  /** A sequence of events that can happen one after the other, from state `s`. */
  ghost predicate IsRun(cfg: Config, s: State, es: seq<Event>)
    requires Inv(cfg, s)
    decreases |es|, 0
  {
    es == [] || (
      && IsRun(cfg, s, es[..|es| - 1])
      && CanStep(cfg, After(cfg, s, es[..|es| - 1]), es[|es| - 1]))
  }

  /** The state at the end of a run. */
  ghost function After(cfg: Config, s: State, es: seq<Event>): (t: State)
    requires Inv(cfg, s) && IsRun(cfg, s, es)
    ensures Inv(cfg, t)
    decreases |es|, 1
  {
    if es == [] then s
    else
      var t := After(cfg, s, es[..|es| - 1]);
      StepKeeps(cfg, t, es[|es| - 1]);
      Step(cfg, t, es[|es| - 1])
  }

  /** A run of the scheduler just after democracy_init. */
  ghost predicate RunsFromStart(cfg: Config, s: State, es: seq<Event>)
    ensures RunsFromStart(cfg, s, es) ==> Inv(cfg, s)
  {
    Initial(cfg, s) && (InitialInv(cfg, s); IsRun(cfg, s, es))
  }

  /** In every reachable state each task is held by one queue entry or one CPU, or by none while it
      sleeps, is not enabled or is between two callbacks. */
  lemma TasksAreConserved(cfg: Config, s: State, es: seq<Event>, p: Pid)
    requires RunsFromStart(cfg, s, es)
    ensures var t := After(cfg, s, es);
            && Holders(t.places, p) <= 1
            && (Holders(t.places, p) == 1 <==>
                (Known(t, p) && t.places.loc[p] !in {Disabled, Asleep, Handover}))
  {
    OnePlaceForEachTask(After(cfg, s, es).places, p);
  }

  /** nr_interactive never exceeds nr_running, nor nr_running the number of CPUs. */
  lemma RunningCountsAreBounded(cfg: Config, s: State)
    requires Inv(cfg, s)
    ensures 0 <= s.nrInteractive <= s.nrRunning <= cfg.topo.count
  {
    SubsetSize(InteractiveIn(s.places.loc, s.tasks), RunningIn(s.places.loc));
    OneTaskPerCpu(s.places.loc, RunningIn(s.places.loc), cfg.topo.count);
  }

  lemma {:induction false} SubsetSize<T>(a: set<T>, b: set<T>)
    requires a <= b
    ensures |a| <= |b|
  {
    if a != {} {
      var x :| x in a;
      SubsetSize(a - {x}, b - {x});
    }
  }

  lemma {:induction false} OneTaskPerCpu(loc: map<Pid, Loc>, ps: set<Pid>, n: nat)
    requires SoleRunners(loc)
    requires forall p :: p in ps ==> p in loc && loc[p].Running? && loc[p].cpu < n
    ensures |ps| <= n
    decreases n
  {
    if ps != {} {
      var p :| p in ps;
      assert n > 0;
      if q :| q in ps && loc[q].cpu == n - 1 {
        forall r | r in ps && loc[r].cpu == n - 1
          ensures r == q
        {
          assert Runs(loc, r, n - 1) && Runs(loc, q, n - 1);
        }
        OneTaskPerCpu(loc, ps - {q}, n - 1);
      } else {
        OneTaskPerCpu(loc, ps, n - 1);
      }
    }
  }
}
