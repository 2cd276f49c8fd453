/** The vruntime scheduler as a state machine: one step for each callback the kernel invokes, and for
    what the kernel does to tasks and CPUs in between. */
module Vruntime {
  import opened Words
  import opened Ewma
  import opened Placement
  import opened IdleCpu
  import opened VirtualClock

  const MAX_CPUS: nat := 1024
  const SHARED_DSQ: nat := MAX_CPUS
  const PRIO_DSQ: nat := MAX_CPUS + 1
  const DSQ_COUNT: nat := MAX_CPUS + 2
  const NSEC_PER_SEC: int := 1_000_000_000

  datatype Config = Config(sliceNs: U64, sliceMin: U64, sliceLag: U64, localKthreads: bool,
                           nvcswThresh: U64, starveThresh: U64, smtEnabled: bool, topo: Topology)

  /** The options under which the u64 arithmetic of the scheduler does not wrap into nonsense. */
  predicate ValidConfig(cfg: Config) {
    && cfg.sliceMin <= cfg.sliceNs
    && 100 * cfg.sliceNs + cfg.sliceLag < TWO63
    && cfg.starveThresh < TWO63
    && 1 <= cfg.topo.count <= MAX_CPUS
  }

  /** struct task_ctx. */
  datatype Ctx = Ctx(interactive: bool, nvcsw: U64, nvcswTs: U64, avgNvcsw: U64)

  const ZERO_CTX := Ctx(false, 0, 0, 0)

  /** A task: its weight, allowed CPUs and kind, scx.dsq_vtime and scx.slice, and its task_ctx. */
  datatype Task = Task(weight: U64, cpus: set<nat>, kthread: bool, vtime: U64, slice: U64, ctx: Ctx)

  datatype State = State(
    // globals of the scheduler
    vtimeNow: U64, sharedTs: U64, prioTs: U64,
    nrDirect: nat, nrKthread: nat, nrPrio: nat, nrShared: nat,
    nrRunning: int, nrInteractive: int, nrOnline: int,
    offline: set<nat>,
    // tasks, and the kernel's own state: places of the tasks, CPU masks, time of the last callback
    tasks: map<Pid, Task>,
    places: Places, masks: Masks, ktime: nat)

  datatype Event =
    | InitTask(p: Pid, task: Task)
    | Enable(p: Pid, now: U64)
    | Disable(p: Pid)
    | SetMask(p: Pid, cpus: set<nat>)
    | Activate(p: Pid)                 // becomes runnable without a call of select_cpu
    | SelectCpu(p: Pid, prev: int, sync: bool, anySmt: int, anyIdle: int)
    | Enqueue(p: Pid, taskCpu: nat)
    | KeepLocal(p: Pid, cpu: nat)      // a preempted task with slice left stays at the head of its local DSQ
    | Dispatch(cpu: nat, now: U64)
    | Run(p: Pid)
    | Stop(p: Pid, now: U64, sliceLeft: U64, nvcsw: U64, runnable: bool)
    | Dequeue(p: Pid)                  // the kernel takes a task back
    | IdleMasks(idle: set<nat>, smt: set<nat>)
    | CpuOnline(c: nat)
    | CpuOffline(c: nat)

  // Parts of the callbacks

  /** task_slice. */
  function TaskSlice(cfg: Config, slice: U64): (r: U64)
    ensures cfg.sliceMin <= cfg.sliceNs ==> cfg.sliceMin <= r <= cfg.sliceNs
  {
    Min(Max(Wrap(slice + cfg.sliceMin) / 2, cfg.sliceMin), cfg.sliceNs)
  }

  /** task_vtime. */
  function TaskVtime(cfg: Config, s: State, p: Pid): U64
    requires p in s.tasks
  {
    ClampedVtime(cfg.sliceLag, s.vtimeNow, s.tasks[p].vtime)
  }

  /** Where a task of virtual time `v` goes in a queue ordered by virtual time. */
  function InsertPos(q: seq<Pid>, tasks: map<Pid, Task>, v: U64): (i: nat)
    ensures i <= |q|
    ensures i < |q| ==> q[i] in tasks && VtimeBefore(v, tasks[q[i]].vtime)
    ensures forall j :: 0 <= j < i && q[j] in tasks ==> !VtimeBefore(v, tasks[q[j]].vtime)
  {
    if q == [] || (q[0] in tasks && VtimeBefore(v, tasks[q[0]].vtime)) then 0
    else 1 + InsertPos(q[1..], tasks, v)
  }

  /** scx_bpf_dispatch_vtime. */
  function DispatchVtime(s: State, p: Pid, d: nat, slice: U64, v: U64): State
    requires d < |s.places.dsqs| && p in s.tasks
  {
    s.(tasks := s.tasks[p := s.tasks[p].(vtime := v, slice := slice)],
       places := AttachDsq(s.places, p, d, InsertPos(s.places.dsqs[d], s.tasks, v)))
  }

  /** is_interactive_avail. */
  predicate InteractiveAvail(s: State)
    requires |s.places.dsqs| == DSQ_COUNT
  {
    |s.places.dsqs[PRIO_DSQ]| < s.nrOnline * 4
  }

  /** The first task of a queue the CPU may run, as an index; the queue length if there is none. */
  function FirstRunnable(q: seq<Pid>, tasks: map<Pid, Task>, cpu: nat): (i: nat)
    ensures i <= |q|
    ensures i < |q| ==> q[i] in tasks && cpu in tasks[q[i]].cpus
    ensures forall j :: 0 <= j < i && q[j] in tasks ==> cpu !in tasks[q[j]].cpus
  {
    if q == [] || (q[0] in tasks && cpu in tasks[q[0]].cpus) then 0
    else 1 + FirstRunnable(q[1..], tasks, cpu)
  }

  /** scx_bpf_consume would find a task for this CPU in this queue. */
  predicate Ready(s: State, d: nat, cpu: nat)
    requires d < |s.places.dsqs|
  {
    FirstRunnable(s.places.dsqs[d], s.tasks, cpu) < |s.places.dsqs[d]|
  }

  /** The task it would find. */
  function NextTask(s: State, d: nat, cpu: nat): Pid
    requires d < |s.places.dsqs| && Ready(s, d, cpu)
  {
    s.places.dsqs[d][FirstRunnable(s.places.dsqs[d], s.tasks, cpu)]
  }

  /** scx_bpf_consume, when it finds a task. */
  function Consume(s: State, d: nat, cpu: nat): State
    requires d < |s.places.dsqs| && cpu < |s.places.local| && Ready(s, d, cpu)
  {
    s.(places := TakeLocal(s.places, NextTask(s, d, cpu), cpu))
  }

  function TakeLocal(pl: Places, p: Pid, cpu: nat): Places
    requires cpu < |pl.local|
  {
    if p in pl.loc && pl.loc[p].Queued? && pl.loc[p].dsq < |pl.dsqs|
    then AttachLocal(Detach(pl, p), p, cpu, |pl.local[cpu]|) else pl
  }

  /** The starvation timestamp `ts` is more than the threshold old. */
  predicate Overdue(cfg: Config, ts: U64, now: U64) {
    cfg.starveThresh != 0 && VtimeBefore(Wrap(ts + cfg.starveThresh), now)
  }

  /** The k-th CPU the offline loop of `cpu` looks at, counting from 1. */
  function LoopCpu(cfg: Config, cpu: nat, k: nat): nat
    requires cfg.topo.count > 0
  {
    (cpu + k) % cfg.topo.count
  }

  /** The first offline CPU from the k-th on whose DSQ has a task for `cpu`, or the CPU count. */
  function OfflineSource(cfg: Config, s: State, cpu: nat, k: nat): (c: nat)
    requires 1 <= cfg.topo.count <= |s.places.dsqs|
    ensures c <= cfg.topo.count
    ensures c < cfg.topo.count ==> c in s.offline && Ready(s, c, cpu)
    decreases cfg.topo.count - k
  {
    if k >= cfg.topo.count then cfg.topo.count
    else
      var c := LoopCpu(cfg, cpu, k);
      if c in s.offline && Ready(s, c, cpu) then c else OfflineSource(cfg, s, cpu, k + 1)
  }

  datatype Source = Nowhere | From(dsq: nat, forced: bool)

  /** The queue democracy_dispatch takes a task from. */
  function SourceOf(cfg: Config, s: State, cpu: nat, now: U64): (r: Source)
    requires Shape(cfg, s) && cpu < cfg.topo.count
    ensures r.From? ==> r.dsq < DSQ_COUNT && Ready(s, r.dsq, cpu)
  {
    if Overdue(cfg, s.sharedTs, now) && Ready(s, SHARED_DSQ, cpu) then From(SHARED_DSQ, true)
    else if Overdue(cfg, s.prioTs, now) && Ready(s, PRIO_DSQ, cpu) then From(PRIO_DSQ, true)
    else if Ready(s, cpu, cpu) then From(cpu, false)
    else if OfflineSource(cfg, s, cpu, 1) < cfg.topo.count then From(OfflineSource(cfg, s, cpu, 1), false)
    else if Ready(s, PRIO_DSQ, cpu) then From(PRIO_DSQ, false)
    else if Ready(s, SHARED_DSQ, cpu) then From(SHARED_DSQ, false)
    else Nowhere
  }

  /** Consume and refresh the starvation timestamp of the queue. */
  function Serve(s: State, d: nat, cpu: nat, now: U64): State
    requires d < |s.places.dsqs| && cpu < |s.places.local| && Ready(s, d, cpu)
  {
    Consume(s, d, cpu).(sharedTs := if d == SHARED_DSQ then now else s.sharedTs,
                        prioTs := if d == PRIO_DSQ then now else s.prioTs)
  }

  /** The virtual time charged for the slice a task has used. */
  function ChargeOf(cfg: Config, sliceLeft: U64, weight: U64): nat {
    if cfg.sliceNs > sliceLeft && weight > 0 then Wrap((cfg.sliceNs - sliceLeft) * 100) / weight else 0
  }

  /** Whether a stopping task has its context switch rate sampled: more than a second since last time. */
  predicate Sampled(cfg: Config, c: Ctx, now: U64) {
    cfg.nvcswThresh != 0 && AsSigned(Wrap(now - c.nvcswTs)) > NSEC_PER_SEC
  }

  function Delta(c: Ctx, nvcsw: U64): U64 {
    Wrap(nvcsw - c.nvcsw)
  }

  function Rate(c: Ctx, now: U64, nvcsw: U64): U64
    requires AsSigned(Wrap(now - c.nvcswTs)) > 0
  {
    Wrap(Delta(c, nvcsw) * NSEC_PER_SEC) / AsSigned(Wrap(now - c.nvcswTs))
  }

  /** The context after a sample with the given rate. */
  function WithRate(cfg: Config, c: Ctx, now: U64, nvcsw: U64, rate: U64): Ctx {
    var avg := CalcAvg(c.avgNvcsw, rate);
    var interactive := if avg >= cfg.nvcswThresh then true else if avg == 0 then false else c.interactive;
    Ctx(interactive, nvcsw, now, avg)
  }

  function Reclassify(cfg: Config, c: Ctx, now: U64, nvcsw: U64): Ctx {
    if Sampled(cfg, c, now) then WithRate(cfg, c, now, nvcsw, Rate(c, now, nvcsw)) else c
  }

  // Well-formed states, and when each event may happen

  ghost predicate Shape(cfg: Config, s: State) {
    && ValidConfig(cfg)
    && |s.places.dsqs| == DSQ_COUNT && |s.places.local| == cfg.topo.count
    && (forall p :: p in s.tasks <==> p in s.places.loc)
    && (forall p :: p in s.places.loc ==> InRange(s.places, s.places.loc[p]))
  }

  predicate Is(s: State, p: Pid, l: Loc) {
    At(s.places, p, l)
  }

  predicate Known(s: State, p: Pid) {
    p in s.places.loc && p in s.tasks
  }

  predicate TimeOk(s: State, now: U64) {
    s.ktime <= now < TWO63
  }

  predicate CanStep(cfg: Config, s: State, e: Event)
    requires Shape(cfg, s)
  {
    match e
    case InitTask(p, task) =>
      p !in s.places.loc && task.weight >= 1 && WithinTopology(cfg.topo, task.cpus) && task.ctx == ZERO_CTX
    case Enable(p, now) => Is(s, p, Disabled) && TimeOk(s, now)
    case Disable(p) => Is(s, p, Asleep)
    case SetMask(p, cpus) =>
      Known(s, p) && !s.places.loc[p].InQueue() && !s.places.loc[p].Running? && WithinTopology(cfg.topo, cpus)
    case Activate(p) => Is(s, p, Asleep)
    case SelectCpu(p, _, _, anySmt, anyIdle) =>
      && Is(s, p, Asleep)
      && AnyFrom(cfg.topo, s.tasks[p].cpus, anySmt) && AnyFrom(cfg.topo, s.tasks[p].cpus, anyIdle)
    case Enqueue(p, taskCpu) => Is(s, p, Handover) && taskCpu < cfg.topo.count
    case KeepLocal(p, cpu) => Is(s, p, Handover) && cpu < cfg.topo.count && cpu in s.tasks[p].cpus
    case Dispatch(cpu, now) => cpu < cfg.topo.count && TimeOk(s, now)
    case Run(p) => Known(s, p) && s.places.loc[p].Local? && CpuFree(s.places, s.places.loc[p].cpu)
    case Stop(p, now, _, nvcsw, _) =>
      Known(s, p) && s.places.loc[p].Running? && s.tasks[p].ctx.nvcsw <= nvcsw && TimeOk(s, now)
    case Dequeue(p) => Known(s, p) && (s.places.loc[p].InQueue() || s.places.loc[p].Handover?)
    case IdleMasks(_, _) => true
    case CpuOnline(c) => c < cfg.topo.count && c !in s.masks.online
    case CpuOffline(c) => c in s.masks.online
  }

  // The steps

  function EnableStep(s: State, p: Pid, now: U64): State
    requires Known(s, p)
  {
    s.(tasks := s.tasks[p := s.tasks[p].(vtime := s.vtimeNow, ctx := s.tasks[p].ctx.(nvcswTs := now))],
       places := Relabel(s.places, p, Asleep), ktime := now)
  }

  function DirectDispatch(cfg: Config, s: State, p: Pid, cpu: nat): State
    requires Shape(cfg, s) && Known(s, p) && cpu < MAX_CPUS
  {
    DispatchVtime(s, p, cpu, TaskSlice(cfg, s.tasks[p].slice), TaskVtime(cfg, s, p))
  }

  /** handle_sync_wakeup. */
  function SyncWakeup(s: State, p: Pid): State
    requires |s.places.dsqs| == DSQ_COUNT && p in s.tasks
  {
    if InteractiveAvail(s)
    then s.(tasks := s.tasks[p := s.tasks[p].(ctx := s.tasks[p].ctx.(interactive := true))]) else s
  }

  /** The last part of select_cpu, once a CPU is picked: dispatch directly, or leave it to enqueue. */
  function PlaceSelected(cfg: Config, s: State, p: Pid, cpu: int, masks: Masks): State
    requires Shape(cfg, s) && Known(s, p)
  {
    if 0 <= cpu < MAX_CPUS && cpu in s.tasks[p].cpus
    then DirectDispatch(cfg, s, p, cpu).(nrDirect := s.nrDirect + 1, masks := masks)
    else s.(places := Relabel(s.places, p, Handover), masks := masks)
  }

  function SelectStep(cfg: Config, s: State, p: Pid, prev: int, sync: bool, anySmt: int, anyIdle: int): (t: State)
    requires Shape(cfg, s) && Known(s, p)
    ensures t == s.(tasks := t.tasks, places := t.places, masks := t.masks, nrDirect := t.nrDirect)
  {
    var (cpu, masks) := PickIdle(cfg.topo, cfg.smtEnabled, s.masks, s.tasks[p].cpus, prev, anySmt, anyIdle);
    PlaceSelected(cfg, if sync then SyncWakeup(s, p) else s, p, cpu, masks)
  }

  /** The queue an enqueued task goes to. */
  function EnqueueTarget(cfg: Config, s: State, p: Pid, taskCpu: nat): nat
    requires Shape(cfg, s) && Known(s, p) && taskCpu < MAX_CPUS
  {
    if cfg.localKthreads && s.tasks[p].kthread && |s.tasks[p].cpus| == 1 && taskCpu in s.tasks[p].cpus then taskCpu
    else if s.tasks[p].ctx.interactive && InteractiveAvail(s) then PRIO_DSQ
    else SHARED_DSQ
  }

  function EnqueueStep(cfg: Config, s: State, p: Pid, taskCpu: nat): (t: State)
    requires Shape(cfg, s) && Known(s, p) && taskCpu < MAX_CPUS
    ensures t == s.(tasks := t.tasks, places := t.places,
                    nrKthread := t.nrKthread, nrPrio := t.nrPrio, nrShared := t.nrShared)
  {
    var d := EnqueueTarget(cfg, s, p, taskCpu);
    DispatchVtime(s, p, d, TaskSlice(cfg, s.tasks[p].slice), TaskVtime(cfg, s, p)).(
      nrKthread := s.nrKthread + (if d < MAX_CPUS then 1 else 0),
      nrPrio := s.nrPrio + (if d == PRIO_DSQ then 1 else 0),
      nrShared := s.nrShared + (if d == SHARED_DSQ then 1 else 0))
  }

  function DispatchStep(cfg: Config, s: State, cpu: nat, now: U64): (t: State)
    requires Shape(cfg, s) && cpu < cfg.topo.count
    ensures t == s.(places := t.places, sharedTs := t.sharedTs, prioTs := t.prioTs, ktime := now)
  {
    match SourceOf(cfg, s, cpu, now)
    case Nowhere => s.(ktime := now)
    case From(d, _) => Serve(s, d, cpu, now).(ktime := now)
  }

  function RunStep(cfg: Config, s: State, p: Pid): State
    requires Known(s, p) && s.places.loc[p].Local? && InRange(s.places, s.places.loc[p])
  {
    s.(vtimeNow := AdvancedNow(s.vtimeNow, s.tasks[p].vtime),
       tasks := s.tasks[p := s.tasks[p].(slice := Min(s.tasks[p].slice, cfg.sliceNs))],
       nrInteractive := s.nrInteractive + (if s.tasks[p].ctx.interactive then 1 else 0),
       nrRunning := s.nrRunning + 1,
       places := Relabel(Detach(s.places, p), p, Running(s.places.loc[p].cpu)))
  }

  function StoppedTask(cfg: Config, t: Task, now: U64, sliceLeft: U64, nvcsw: U64): Task {
    t.(vtime := Wrap(t.vtime + ChargeOf(cfg, sliceLeft, t.weight)), slice := sliceLeft,
       ctx := Reclassify(cfg, t.ctx, now, nvcsw))
  }

  function StopStep(cfg: Config, s: State, p: Pid, now: U64, sliceLeft: U64, nvcsw: U64, runnable: bool): State
    requires Known(s, p)
  {
    s.(nrRunning := s.nrRunning - 1,
       nrInteractive := s.nrInteractive - (if s.tasks[p].ctx.interactive then 1 else 0),
       tasks := s.tasks[p := StoppedTask(cfg, s.tasks[p], now, sliceLeft, nvcsw)],
       places := Relabel(s.places, p, if runnable then Handover else Asleep),
       ktime := now)
  }

  function Step(cfg: Config, s: State, e: Event): State
    requires Shape(cfg, s) && CanStep(cfg, s, e)
  {
    match e
    case InitTask(p, task) => s.(tasks := s.tasks[p := task], places := Relabel(s.places, p, Disabled))
    case Enable(p, now) => EnableStep(s, p, now)
    case Disable(p) => s.(places := Relabel(s.places, p, Disabled))
    case SetMask(p, cpus) => s.(tasks := s.tasks[p := s.tasks[p].(cpus := cpus)])
    case Activate(p) => s.(places := Relabel(s.places, p, Handover))
    case SelectCpu(p, prev, sync, anySmt, anyIdle) => SelectStep(cfg, s, p, prev, sync, anySmt, anyIdle)
    case Enqueue(p, taskCpu) => EnqueueStep(cfg, s, p, taskCpu)
    case KeepLocal(p, cpu) => s.(places := AttachLocal(s.places, p, cpu, 0))
    case Dispatch(cpu, now) => DispatchStep(cfg, s, cpu, now)
    case Run(p) => RunStep(cfg, s, p)
    case Stop(p, now, sliceLeft, nvcsw, runnable) => StopStep(cfg, s, p, now, sliceLeft, nvcsw, runnable)
    case Dequeue(p) => s.(places := Relabel(Detach(s.places, p), p, Asleep))
    case IdleMasks(idle, smt) => s.(masks := s.masks.(idle := idle, smt := smt))
    case CpuOnline(c) =>
      s.(offline := s.offline - {c}, nrOnline := s.nrOnline + 1,
         masks := s.masks.(online := s.masks.online + {c}))
    case CpuOffline(c) =>
      s.(offline := s.offline + {c}, nrOnline := s.nrOnline - 1,
         masks := s.masks.(online := s.masks.online - {c}))
  }

  /** The scheduler just after democracy_init, with no task yet. */
  ghost predicate Initial(cfg: Config, s: State) {
    && Shape(cfg, s)
    && s.vtimeNow == s.sharedTs == s.prioTs == 0
    && s.nrDirect == s.nrKthread == s.nrPrio == s.nrShared == 0
    && s.nrRunning == s.nrInteractive == 0
    && WithinTopology(cfg.topo, s.masks.online) && s.nrOnline == |s.masks.online| && s.offline == {}
    && s.places.loc == map[] && s.tasks == map[]
    && (forall d :: 0 <= d < |s.places.dsqs| ==> s.places.dsqs[d] == [])
    && (forall c :: 0 <= c < |s.places.local| ==> s.places.local[c] == [])
    && s.ktime < TWO63
  }
}
