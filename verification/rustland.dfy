/** The BPF backend of the user-space scheduler as a state machine: tasks are sent to user space on one
    ring, decisions come back on another, possibly stale, and are checked against a cpumask generation
    counter. The user-space side is left free, except that it only sends messages it has received. */
module Rustland {
  import opened Words

  type Pid = nat

  const MAX_CPUS: nat := 1024
  const SHARED_DSQ: nat := MAX_CPUS
  const DSQ_COUNT: nat := MAX_CPUS + 1
  const MAX_ENQUEUED_TASKS: nat := 4096
  const MAX_DISPATCH_SLOT: nat := MAX_ENQUEUED_TASKS / 8

  datatype Config = Config(userPid: Pid, nrCpus: nat, fullUser: bool, fifoSched: bool)

  predicate ValidConfig(cfg: Config) {
    1 <= cfg.nrCpus <= MAX_CPUS && cfg.userPid > 0
  }

  /** A live task: its cpumask, the generation counter of that mask, and whether it is a kernel thread. */
  datatype Task = Task(mask: set<nat>, cnt: U64, kthread: bool)

  /** queued_task_ctx. `stamp` is no field of the source: it is the length of the history of cpumask
      changes when the message was made, and no operation reads it. */
  datatype QMsg = QMsg(pid: Pid, cpu: int, cnt: U64, exiting: bool, stamp: nat)

  /** dispatched_task_ctx, with the flags RL_CPU_ANY and RL_PREEMPT_CPU as booleans. */
  datatype DMsg = DMsg(pid: Pid, cpu: int, cnt: U64, anyCpu: bool, preempt: bool, slice: U64, exiting: bool, stamp: nat)

  /** What becomes of a dispatch message. `Invalid` raises an error that takes the scheduler down. */
  datatype Outcome = Gone | Shared | OnCpu(cpu: nat) | Bounced | Cancelled | Invalid

  /** A handled message, with the number of cpumask changes by then, whether the task still existed, and its mask
      at the time. */
  datatype Handled = Handled(msg: DMsg, outcome: Outcome, at: nat, live: bool, mask: set<nat>)

  /** A dispatch waiting in the batch buffer, or a task in a queue; `head` marks a preempting one. */
  datatype Slot = Slot(pid: Pid, dsq: nat, head: bool)

  datatype Counters = Counters(nrQueued: nat, nrScheduled: nat, nrRunning: int, nrUser: nat, nrKernel: nat,
                               nrCancel: nat, nrBounce: nat, nrCongested: nat)

  /** What happened so far: cpumask changes, messages submitted by user space, messages handled. */
  datatype History = History(maskLog: seq<Pid>, submitted: seq<DMsg>, handled: seq<Handled>)

  datatype State = State(
    tasks: map<Pid, Task>, dead: set<Pid>,
    queued: seq<QMsg>, received: seq<QMsg>, dispatched: seq<DMsg>,
    dsqs: seq<seq<Slot>>, local: seq<seq<Pid>>,
    n: Counters, needed: bool, aborted: bool, fifo: bool, waitingAvg: U64,
    cpuMap: seq<Pid>, onCpu: map<nat, Pid>, sawEmpty: bool, h: History)

  datatype Event =
    | Init(p: Pid, mask: set<nat>, kthread: bool)
    | Exit(p: Pid, full: bool, garbage: U64)      // full: the ring has no room
    | Die(p: Pid)
    | SetCpumask(p: Pid, mask: set<nat>)
    | Enqueue(p: Pid, cpu: nat, full: bool)
    | Dispatch(cpu: nat)
    | Run(p: Pid, cpu: nat)
    | Stop(p: Pid, cpu: nat)
    | UpdateIdle(cpu: nat, idle: bool)
    | CpuRelease(p: Pid)
    | Timer
    | Dequeue(p: Pid)                             // the kernel takes a task out of its queue
    | UserReceive
    | UserSeesEmpty
    | UserReset
    | UserSubmit(m: DMsg)

  // Handling one message

  /** handle_dispatched_task and dispatch_task: what a message comes to. */
  function OutcomeOf(tasks: map<Pid, Task>, m: DMsg): Outcome {
    if m.pid !in tasks then Gone
    else if m.anyCpu then Shared
    else if !(0 <= m.cpu < MAX_CPUS) then Invalid
    else if tasks[m.pid].cnt != m.cnt then Cancelled
    else if m.cpu !in tasks[m.pid].mask then Bounced
    else OnCpu(m.cpu)
  }

  /** The slots a message leaves in the batch: none when ignored or cancelled. */
  function SlotsOf(m: DMsg, o: Outcome): seq<Slot> {
    match o
    case Gone => []
    case Cancelled => []
    case OnCpu(c) => [Slot(m.pid, c, m.preempt)]
    case _ => [Slot(m.pid, SHARED_DSQ, m.preempt)]
  }

  function HandledAs(tasks: map<Pid, Task>, at: nat, m: DMsg): Handled {
    Handled(m, OutcomeOf(tasks, m), at, m.pid in tasks, if m.pid in tasks then tasks[m.pid].mask else {})
  }

  function Counted(n: Counters, o: Outcome): Counters {
    match o
    case Gone => n
    case Cancelled => n.(nrUser := n.nrUser + 1, nrCancel := n.nrCancel + 1)
    case Bounced => n.(nrUser := n.nrUser + 1, nrBounce := n.nrBounce + 1)
    case _ => n.(nrUser := n.nrUser + 1)
  }

  /** Take the first message off the ring and handle it; the batch is kept apart from the state. */
  function HandleFirst(s: State): State
    requires s.dispatched != []
  {
    var m := s.dispatched[0];
    var o := OutcomeOf(s.tasks, m);
    s.(dispatched := s.dispatched[1..], n := Counted(s.n, o), aborted := s.aborted || o == Invalid,
       h := s.h.(handled := s.h.handled + [HandledAs(s.tasks, |s.h.maskLog|, m)]))
  }

  /** bpf_user_ringbuf_drain: handle messages until the ring is empty or the batch is full. */
  function Drain(s: State, batch: seq<Slot>): (State, seq<Slot>)
    decreases |s.dispatched|
  {
    if s.dispatched == [] then (s, batch)
    else
      var o := OutcomeOf(s.tasks, s.dispatched[0]);
      var batch' := batch + SlotsOf(s.dispatched[0], o);
      if o != Gone && |batch'| >= MAX_DISPATCH_SLOT then (HandleFirst(s), batch')
      else Drain(HandleFirst(s), batch')
  }

  /** The kernel files a slot into its queue: preempting ones at the head. */
  function FileSlot(dsqs: seq<seq<Slot>>, x: Slot): seq<seq<Slot>>
    requires |dsqs| == DSQ_COUNT
  {
    if x.dsq >= DSQ_COUNT then dsqs
    else dsqs[x.dsq := if x.head then [x] + dsqs[x.dsq] else dsqs[x.dsq] + [x]]
  }

  function Flush(dsqs: seq<seq<Slot>>, batch: seq<Slot>): (r: seq<seq<Slot>>)
    requires |dsqs| == DSQ_COUNT
    ensures |r| == DSQ_COUNT
  {
    if batch == [] then dsqs
    else FileSlot(Flush(dsqs, batch[..|batch| - 1]), batch[|batch| - 1])
  }

  predicate MayRun(tasks: map<Pid, Task>, p: Pid, cpu: nat) {
    p in tasks && cpu in tasks[p].mask
  }

  /** Up to `n` consumptions of a queue by a CPU: what stays in the queue and what the CPU gets. */
  function ConsumeUpTo(q: seq<Slot>, tasks: map<Pid, Task>, cpu: nat, n: nat): (r: (seq<Slot>, seq<Pid>))
  {
    if q == [] || n == 0 then (q, [])
    else if MayRun(tasks, q[0].pid, cpu) then
      var (rest, got) := ConsumeUpTo(q[1..], tasks, cpu, n - 1);
      (rest, [q[0].pid] + got)
    else
      var (rest, got) := ConsumeUpTo(q[1..], tasks, cpu, n);
      ([q[0]] + rest, got)
  }

  function ConsumeInto(s: State, d: nat, cpu: nat): State
    requires d < |s.dsqs| && cpu < |s.local|
  {
    var (rest, got) := ConsumeUpTo(s.dsqs[d], s.tasks, cpu, MAX_ENQUEUED_TASKS);
    s.(dsqs := s.dsqs[d := rest], local := s.local[cpu := s.local[cpu] + got])
  }

  /** The batch rustland_dispatch starts with: the user-space scheduler if it is needed. */
  function FirstBatch(cfg: Config, s: State): seq<Slot> {
    if s.needed && cfg.userPid in s.tasks then [Slot(cfg.userPid, SHARED_DSQ, false)] else []
  }

  /** dispatch_user_scheduler clears the wake-up flag, and needs the scheduler to exist. */
  function FlagCleared(cfg: Config, s: State): State {
    s.(needed := false, aborted := s.aborted || (s.needed && cfg.userPid !in s.tasks))
  }

  /** rustland_dispatch. */
  function DispatchStep(cfg: Config, s: State, cpu: nat): State
    requires |s.dsqs| == DSQ_COUNT && cpu < |s.local| && cpu < MAX_CPUS
  {
    var s0 := FlagCleared(cfg, s);
    var (s1, batch) := Drain(s0, FirstBatch(cfg, s));
    DrainKeepsQueues(s0, FirstBatch(cfg, s));
    var s2 := s1.(dsqs := Flush(s1.dsqs, batch));
    ConsumeInto(ConsumeInto(s2, SHARED_DSQ, cpu), cpu, cpu)
  }

  lemma {:induction false} DrainKeepsQueues(s: State, batch: seq<Slot>)
    ensures var (t, _) := Drain(s, batch);
            && t == s.(dispatched := t.dispatched, n := t.n, aborted := t.aborted, h := t.h)
            && t.h == s.h.(handled := t.h.handled)
            && t.n == s.n.(nrUser := t.n.nrUser, nrCancel := t.n.nrCancel, nrBounce := t.n.nrBounce)
    decreases |s.dispatched|
  {
    if s.dispatched != [] {
      DrainKeepsQueues(HandleFirst(s), batch + SlotsOf(s.dispatched[0], OutcomeOf(s.tasks, s.dispatched[0])));
    }
  }

  // FIFO mode

  /** should_enable_fifo: the new mode and the new average of waiting tasks. */
  function FifoTick(cfg: Config, fifo: bool, avg: U64, waiting: U64, running: int): (bool, U64) {
    if !cfg.fifoSched then (false, avg)
    else if fifo then (running < cfg.nrCpus - 1, avg)
    else
      var avg' := Wrap(avg + waiting) / 2;
      (avg' == 0, avg')
  }

  // The steps

  predicate HasPendingTasks(n: Counters) {
    n.nrQueued != 0 || n.nrScheduled != 0
  }

  /** Whether an event asks for the user-space scheduler to run. */
  predicate IsRequest(cfg: Config, s: State, e: Event) {
    match e
    case Stop(p, _) => p != cfg.userPid
    case UpdateIdle(_, idle) => idle && HasPendingTasks(s.n)
    case CpuRelease(p) => p == cfg.userPid
    case Timer => true
    case _ => false
  }

  ghost predicate Shape(cfg: Config, s: State) {
    && ValidConfig(cfg)
    && |s.dsqs| == DSQ_COUNT && |s.local| == cfg.nrCpus && |s.cpuMap| == MAX_CPUS
  }

  /** User space can only send what it received: pid and generation counter are private fields that are
      copied from the message of the task; the CPU, the flags and the slice are its own choice. */
  predicate DerivedFrom(m: DMsg, q: QMsg) {
    m.pid == q.pid && m.cnt == q.cnt && m.exiting == q.exiting && m.stamp == q.stamp
  }

  ghost predicate CanStep(cfg: Config, s: State, e: Event)
    requires Shape(cfg, s)
  {
    match e
    case Init(p, mask, _) => p > 0 && p !in s.tasks && p !in s.dead && (forall c :: c in mask ==> c < cfg.nrCpus)
    case Exit(p, _, _) => p in s.tasks
    case Die(p) => p in s.tasks && forall c :: c in s.onCpu ==> s.onCpu[c] != p
    case SetCpumask(p, mask) => p in s.tasks && forall c :: c in mask ==> c < cfg.nrCpus
    case Enqueue(p, cpu, _) => p in s.tasks && cpu < cfg.nrCpus
    case Dispatch(cpu) => cpu < cfg.nrCpus
    case Run(p, cpu) => p in s.tasks && cpu < cfg.nrCpus && cpu !in s.onCpu
    case Stop(p, cpu) => cpu < cfg.nrCpus && cpu in s.onCpu && s.onCpu[cpu] == p
    case UpdateIdle(cpu, _) => cpu < cfg.nrCpus
    case CpuRelease(p) => true
    case Timer => true
    case Dequeue(p) => true
    case UserReceive => s.queued != [] && !s.sawEmpty
    case UserSeesEmpty => s.queued == [] && !s.sawEmpty
    case UserReset => s.sawEmpty
    case UserSubmit(m) => !s.sawEmpty && exists q :: q in s.received && DerivedFrom(m, q)
  }

  /** Push a message on the ring of queued tasks. */
  function Send(s: State, q: QMsg, full: bool): State {
    if full then s.(n := s.n.(nrCongested := s.n.nrCongested + 1))
    else s.(queued := s.queued + [q], n := s.n.(nrQueued := s.n.nrQueued + 1))
  }

  /** A dispatch made by the kernel side itself. */
  function KernelDispatch(s: State, x: Slot): State
    requires |s.dsqs| == DSQ_COUNT
  {
    s.(dsqs := FileSlot(s.dsqs, x), n := s.n.(nrKernel := s.n.nrKernel + 1))
  }

  /** The same for the local queue of a CPU. */
  function LocalDispatch(s: State, p: Pid, cpu: nat): State
    requires cpu < |s.local|
  {
    s.(local := s.local[cpu := s.local[cpu] + [p]], n := s.n.(nrKernel := s.n.nrKernel + 1))
  }

  /** rustland_enqueue. */
  function EnqueueStep(cfg: Config, s: State, p: Pid, cpu: nat, full: bool): (t: State)
    requires |s.dsqs| == DSQ_COUNT && cpu < |s.local| && p in s.tasks
    ensures t == s.(dsqs := t.dsqs, local := t.local, queued := t.queued,
                    n := s.n.(nrQueued := t.n.nrQueued, nrKernel := t.n.nrKernel, nrCongested := t.n.nrCongested))
    ensures |t.dsqs| == DSQ_COUNT && |t.local| == |s.local|
  {
    if p == cfg.userPid then s
    else if s.tasks[p].kthread && |s.tasks[p].mask| == 1 then
      LocalDispatch(s, p, cpu)
    else if !cfg.fullUser && s.fifo then KernelDispatch(s, Slot(p, cpu, false))
    else
      var sent := Send(s, QMsg(p, cpu, s.tasks[p].cnt, false, |s.h.maskLog|), full);
      if full then KernelDispatch(sent, Slot(p, SHARED_DSQ, false)) else sent
  }

  /** rustland_running. */
  function RunStep(cfg: Config, s: State, p: Pid, cpu: nat): State
    requires cpu < |s.cpuMap|
  {
    var s1 := s.(onCpu := s.onCpu[cpu := p]);
    if p == cfg.userPid then s1
    else s1.(cpuMap := s.cpuMap[cpu := p], n := s.n.(nrRunning := s.n.nrRunning + 1))
  }

  /** rustland_stopping. */
  function StopStep(cfg: Config, s: State, p: Pid, cpu: nat): State
    requires cpu < |s.cpuMap|
  {
    var s1 := s.(onCpu := s.onCpu - {cpu});
    if p == cfg.userPid then s1
    else s1.(cpuMap := s.cpuMap[cpu := 0], n := s.n.(nrRunning := s.n.nrRunning - 1), needed := true)
  }

  /** rustland_set_cpumask: the kernel changes the mask, and the generation counter goes up. */
  function MaskStep(s: State, p: Pid, mask: set<nat>): State
    requires p in s.tasks
  {
    s.(tasks := s.tasks[p := s.tasks[p].(mask := mask, cnt := Wrap(s.tasks[p].cnt + 1))],
       h := s.h.(maskLog := s.h.maskLog + [p]))
  }

  /** usersched_timer_fn. */
  function TimerStep(cfg: Config, s: State): State {
    var (fifo, avg) := FifoTick(cfg, s.fifo, s.waitingAvg, Wrap(s.n.nrQueued + s.n.nrScheduled), s.n.nrRunning);
    s.(needed := true, fifo := fifo, waitingAvg := avg)
  }

  function WithoutPid(q: seq<Slot>, p: Pid): seq<Slot> {
    if q == [] then [] else (if q[0].pid == p then [] else [q[0]]) + WithoutPid(q[1..], p)
  }

  function Step(cfg: Config, s: State, e: Event): State
    requires Shape(cfg, s) && CanStep(cfg, s, e)
  {
    match e
    case Init(p, mask, kthread) => s.(tasks := s.tasks[p := Task(mask, 0, kthread)])
    case Exit(p, full, garbage) => Send(s, QMsg(p, -1, garbage, true, |s.h.maskLog|), full)
    case Die(p) => s.(tasks := s.tasks - {p}, dead := s.dead + {p})
    case SetCpumask(p, mask) => MaskStep(s, p, mask)
    case Enqueue(p, cpu, full) => EnqueueStep(cfg, s, p, cpu, full)
    case Dispatch(cpu) => DispatchStep(cfg, s, cpu)
    case Run(p, cpu) => RunStep(cfg, s, p, cpu)
    case Stop(p, cpu) => StopStep(cfg, s, p, cpu)
    case UpdateIdle(_, _) => s.(needed := s.needed || IsRequest(cfg, s, e))
    case CpuRelease(_) => s.(needed := s.needed || IsRequest(cfg, s, e))
    case Timer => TimerStep(cfg, s)
    case Dequeue(p) =>
      s.(dsqs := seq(DSQ_COUNT, d requires 0 <= d < DSQ_COUNT => WithoutPid(s.dsqs[d], p)))
    case UserReceive => s.(queued := s.queued[1..], received := s.received + [s.queued[0]])
    case UserSeesEmpty => s.(sawEmpty := true)
    case UserReset => s.(n := s.n.(nrQueued := 0, nrScheduled := 0), sawEmpty := false)
    case UserSubmit(m) =>
      s.(dispatched := s.dispatched + [m], h := s.h.(submitted := s.h.submitted + [m]))
  }

  /** The backend before any task exists. */
  ghost predicate Initial(cfg: Config, s: State) {
    && Shape(cfg, s)
    && s.tasks == map[] && s.dead == {} && s.onCpu == map[]
    && s.queued == [] && s.received == [] && s.dispatched == []
    && s.n == Counters(0, 0, 0, 0, 0, 0, 0, 0)
    && !s.needed && !s.aborted && !s.fifo && s.waitingAvg == 0 && !s.sawEmpty
    && (forall c :: 0 <= c < |s.cpuMap| ==> s.cpuMap[c] == 0)
    && (forall d :: 0 <= d < |s.dsqs| ==> s.dsqs[d] == [])
    && (forall c :: 0 <= c < |s.local| ==> s.local[c] == [])
    && s.h == History([], [], [])
  }
}
