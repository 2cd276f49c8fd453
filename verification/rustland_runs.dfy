/** Whole runs of the BPF backend of the user-space scheduler. */
module RustlandRuns {
  import opened Words
  import opened Rustland
  import opened RustlandProtocol
  import opened FifoMode

  // Running tasks

  ghost function BusyCpus(cpuMap: seq<Pid>): set<nat> {
    set c: nat | c < |cpuMap| && cpuMap[c] != 0
  }

  /** cpu_map names the task on each CPU, ignoring the user-space scheduler, and nr_running counts them. */
  ghost predicate Accounted(cfg: Config, s: State) {
    CpusAccounted(cfg, s.onCpu, s.cpuMap, s.n.nrRunning) && forall p :: p in s.tasks ==> p > 0
  }

  ghost predicate CpusAccounted(cfg: Config, onCpu: map<nat, Pid>, cpuMap: seq<Pid>, nrRunning: int) {
    && (forall c :: c in onCpu ==> c < cfg.nrCpus && onCpu[c] > 0)
    && (forall c :: 0 <= c < |cpuMap| ==>
          cpuMap[c] == if c in onCpu && onCpu[c] != cfg.userPid then onCpu[c] else 0)
    && nrRunning == |BusyCpus(cpuMap)|
  }

  lemma BusyAfterUpdate(cpuMap: seq<Pid>, cpu: nat, p: Pid)
    requires cpu < |cpuMap|
    ensures |BusyCpus(cpuMap[cpu := p])|
         == |BusyCpus(cpuMap)| + (if p != 0 then 1 else 0) - if cpuMap[cpu] != 0 then 1 else 0
  {
    var others := BusyCpus(cpuMap) - {cpu};
    assert BusyCpus(cpuMap) == if cpuMap[cpu] != 0 then others + {cpu} else others;
    assert BusyCpus(cpuMap[cpu := p]) == if p != 0 then others + {cpu} else others;
  }

  lemma RunIsAccounted(cfg: Config, onCpu: map<nat, Pid>, cpuMap: seq<Pid>, n: int, p: Pid, cpu: nat)
    requires CpusAccounted(cfg, onCpu, cpuMap, n) && cpu < cfg.nrCpus && cpu < |cpuMap| && cpu !in onCpu && p > 0
    ensures if p == cfg.userPid then CpusAccounted(cfg, onCpu[cpu := p], cpuMap, n)
            else CpusAccounted(cfg, onCpu[cpu := p], cpuMap[cpu := p], n + 1)
  {
    BusyAfterUpdate(cpuMap, cpu, p);
  }

  lemma StopIsAccounted(cfg: Config, onCpu: map<nat, Pid>, cpuMap: seq<Pid>, n: int, cpu: nat)
    requires CpusAccounted(cfg, onCpu, cpuMap, n) && cpu < |cpuMap| && cpu in onCpu
    ensures if onCpu[cpu] == cfg.userPid then CpusAccounted(cfg, onCpu - {cpu}, cpuMap, n)
            else CpusAccounted(cfg, onCpu - {cpu}, cpuMap[cpu := 0], n - 1)
  {
    BusyAfterUpdate(cpuMap, cpu, 0);
  }

  lemma RunKeepsAccounted(cfg: Config, s: State, p: Pid, cpu: nat)
    requires Shape(cfg, s) && Accounted(cfg, s) && CanStep(cfg, s, Run(p, cpu))
    ensures Accounted(cfg, RunStep(cfg, s, p, cpu))
  {
    RunIsAccounted(cfg, s.onCpu, s.cpuMap, s.n.nrRunning, p, cpu);
  }

  lemma StopKeepsAccounted(cfg: Config, s: State, p: Pid, cpu: nat)
    requires Shape(cfg, s) && Accounted(cfg, s) && CanStep(cfg, s, Stop(p, cpu))
    ensures Accounted(cfg, StopStep(cfg, s, p, cpu))
  {
    StopIsAccounted(cfg, s.onCpu, s.cpuMap, s.n.nrRunning, cpu);
  }

  /** The CPUs, their accounting and FIFO mode are the same. */
  ghost predicate SameCpus(s: State, t: State) {
    && t.onCpu == s.onCpu && t.cpuMap == s.cpuMap && t.n.nrRunning == s.n.nrRunning
    && t.fifo == s.fifo && t.waitingAvg == s.waitingAvg
    && |t.dsqs| == |s.dsqs| && |t.local| == |s.local|
    && (forall p :: p in t.tasks ==> p in s.tasks || p > 0)
  }

  lemma DispatchKeepsCpus(cfg: Config, s: State, cpu: nat)
    requires Shape(cfg, s) && cpu < cfg.nrCpus
    ensures var t := DispatchStep(cfg, s, cpu);
            && SameCpus(s, t) && !t.needed
            && t.queued == s.queued && t.n.nrQueued == s.n.nrQueued && t.sawEmpty == s.sawEmpty
            && t.n.nrScheduled == s.n.nrScheduled
  {
    DrainKeepsQueues(FlagCleared(cfg, s), FirstBatch(cfg, s));
  }

  lemma EnqueueKeepsCpus(cfg: Config, s: State, p: Pid, cpu: nat, full: bool)
    requires |s.dsqs| == DSQ_COUNT && cpu < |s.local| && p in s.tasks
    ensures SameCpus(s, EnqueueStep(cfg, s, p, cpu, full)) && EnqueueStep(cfg, s, p, cpu, full).needed == s.needed
  {
  }

  lemma ExitKeepsCpus(cfg: Config, s: State, p: Pid, full: bool, garbage: U64)
    requires Shape(cfg, s) && CanStep(cfg, s, Exit(p, full, garbage))
    ensures var t := Step(cfg, s, Exit(p, full, garbage)); SameCpus(s, t) && t.needed == s.needed
  {
  }

  lemma TaskStepsKeepCpus(cfg: Config, s: State, e: Event)
    requires Shape(cfg, s) && CanStep(cfg, s, e)
    requires e.Init? || e.Die? || e.SetCpumask? || e.UserReceive? || e.UserSubmit?
    ensures SameCpus(s, Step(cfg, s, e)) && Step(cfg, s, e).needed == s.needed
  {
  }

  lemma IdleStepsKeepCpus(cfg: Config, s: State, e: Event)
    requires Shape(cfg, s) && CanStep(cfg, s, e)
    requires e.UpdateIdle? || e.CpuRelease? || e.Dequeue? || e.UserSeesEmpty? || e.UserReset?
    ensures SameCpus(s, Step(cfg, s, e)) && (Step(cfg, s, e).needed <==> s.needed || IsRequest(cfg, s, e))
  {
  }

  /** Every event other than Run, Stop and Timer leaves the CPUs as they are; and what happens to the
      wake-up flag. */
  lemma StepsKeepCpus(cfg: Config, s: State, e: Event)
    requires Shape(cfg, s) && CanStep(cfg, s, e) && !e.Run? && !e.Stop? && !e.Timer?
    ensures SameCpus(s, Step(cfg, s, e))
    ensures Step(cfg, s, e).needed <==> !e.Dispatch? && (s.needed || IsRequest(cfg, s, e))
  {
    if e.Dispatch? {
      DispatchKeepsCpus(cfg, s, e.cpu);
    } else if e.Enqueue? {
      EnqueueKeepsCpus(cfg, s, e.p, e.cpu, e.full);
    } else if e.Exit? {
      ExitKeepsCpus(cfg, s, e.p, e.full, e.garbage);
    } else if e.Init? || e.Die? || e.SetCpumask? || e.UserReceive? || e.UserSubmit? {
      TaskStepsKeepCpus(cfg, s, e);
    } else {
      IdleStepsKeepCpus(cfg, s, e);
    }
  }

  lemma SameCpusKeepAccounted(cfg: Config, s: State, t: State)
    requires Shape(cfg, s) && Accounted(cfg, s) && SameCpus(s, t)
    ensures Shape(cfg, t) && Accounted(cfg, t)
  {
  }

  lemma ShapeAfterRunOrStop(cfg: Config, s: State, e: Event)
    requires Shape(cfg, s) && CanStep(cfg, s, e) && (e.Run? || e.Stop? || e.Timer?)
    ensures Shape(cfg, Step(cfg, s, e))
  {
  }

  lemma StepKeepsAccounted(cfg: Config, s: State, e: Event)
    requires Shape(cfg, s) && Accounted(cfg, s) && CanStep(cfg, s, e)
    ensures Shape(cfg, Step(cfg, s, e)) && Accounted(cfg, Step(cfg, s, e))
  {
    if e.Run? || e.Stop? || e.Timer? {
      ShapeAfterRunOrStop(cfg, s, e);
    }
    match e
    case Run(p, cpu) => RunKeepsAccounted(cfg, s, p, cpu);
    case Stop(p, cpu) => StopKeepsAccounted(cfg, s, p, cpu);
    case Timer =>
    case _ =>
      StepsKeepCpus(cfg, s, e);
      SameCpusKeepAccounted(cfg, s, Step(cfg, s, e));
  }

  // The whole invariant, and runs

  ghost predicate Inv(cfg: Config, s: State) {
    Shape(cfg, s) && GenerationInv(s) && DrainInv(s) && Accounted(cfg, s) && FifoInv(cfg, s.fifo, s.waitingAvg)
  }

  lemma InitialInv(cfg: Config, s: State)
    requires Initial(cfg, s)
    ensures Inv(cfg, s)
  {
    assert BusyCpus(s.cpuMap) == {};
  }

  /** Only the timer changes FIFO mode. */
  lemma OnlyTicksChangeFifo(cfg: Config, s: State, e: Event)
    requires Shape(cfg, s) && CanStep(cfg, s, e)
    ensures (Step(cfg, s, e).fifo, Step(cfg, s, e).waitingAvg) ==
              if e.Timer?
              then FifoTick(cfg, s.fifo, s.waitingAvg, Wrap(s.n.nrQueued + s.n.nrScheduled), s.n.nrRunning)
              else (s.fifo, s.waitingAvg)
  {
    if !e.Run? && !e.Stop? && !e.Timer? {
      StepsKeepCpus(cfg, s, e);
    }
  }

  /** Every step of the backend keeps the invariant. */
  lemma StepKeeps(cfg: Config, s: State, e: Event)
    requires Inv(cfg, s) && CanStep(cfg, s, e)
    ensures Inv(cfg, Step(cfg, s, e))
  {
    StepKeepsGeneration(cfg, s, e);
    StepKeepsDrainInv(cfg, s, e);
    StepKeepsAccounted(cfg, s, e);
    OnlyTicksChangeFifo(cfg, s, e);
    TickKeepsFifoInv(cfg, s.fifo, s.waitingAvg, Wrap(s.n.nrQueued + s.n.nrScheduled), s.n.nrRunning);
  }

  lemma StepKeepsShape(cfg: Config, s: State, e: Event)
    requires Shape(cfg, s) && CanStep(cfg, s, e)
    ensures Shape(cfg, Step(cfg, s, e))
  {
    if !e.Run? && !e.Stop? && !e.Timer? {
      StepsKeepCpus(cfg, s, e);
    }
  }

  /** A sequence of events that can happen one after the other, from state `s`. */
  ghost predicate IsRun(cfg: Config, s: State, es: seq<Event>)
    requires Shape(cfg, s)
    decreases |es|, 0
  {
    es == [] || (
      && IsRun(cfg, s, es[..|es| - 1])
      && CanStep(cfg, After(cfg, s, es[..|es| - 1]), es[|es| - 1]))
  }

  /** The state at the end of a run. */
  ghost function After(cfg: Config, s: State, es: seq<Event>): (t: State)
    requires Shape(cfg, s) && IsRun(cfg, s, es)
    ensures Shape(cfg, t)
    decreases |es|, 1
  {
    if es == [] then s
    else
      var t := After(cfg, s, es[..|es| - 1]);
      StepKeepsShape(cfg, t, es[|es| - 1]);
      Step(cfg, t, es[|es| - 1])
  }

  lemma {:induction false} InvHolds(cfg: Config, s: State, es: seq<Event>)
    requires Inv(cfg, s) && IsRun(cfg, s, es)
    ensures Inv(cfg, After(cfg, s, es))
  {
    if es == [] {
    } else {
      InvHolds(cfg, s, es[..|es| - 1]);
      StepKeeps(cfg, After(cfg, s, es[..|es| - 1]), es[|es| - 1]);
    }
  }

  /** With fewer than 2^64 cpumask changes so far the generation counter tells stale messages apart. */
  lemma VerdictInShortHistory(log: seq<Pid>, r: Handled)
    requires RightVerdict(log, r) && |log| < TWO64
    requires !r.msg.exiting && r.live && !r.msg.anyCpu && 0 <= r.msg.cpu < MAX_CPUS
    ensures ExactVerdict(log, r)
  {
    var hits := HitsBetween(log, r.msg.pid, r.msg.stamp, r.at);
    NoHitsIff(log[r.msg.stamp..r.at], r.msg.pid);
    assert Wrap(hits) == hits;
  }

  ghost predicate ExactVerdict(log: seq<Pid>, r: Handled) {
    && 0 <= r.msg.cpu < MAX_CPUS
    && r.msg.stamp <= r.at <= |log|
    && var stale := r.msg.pid in log[r.msg.stamp..r.at];
       && (r.outcome == OnCpu(r.msg.cpu) <==> !stale && r.msg.cpu in r.mask)
       && (r.outcome == Cancelled <==> stale)
       && (r.outcome == Bounced <==> !stale && r.msg.cpu !in r.mask)
  }

  /** In every run, however user space delays, repeats and reorders its decisions: a message lands on the
      queue of a CPU only if the CPU was in the task's mask and no set_cpumask hit the task since its
      information was stamped; with a valid CPU and no RL_CPU_ANY, every other message of a live task is
      cancelled (if stale) or bounced to the shared queue (if the CPU was never allowed). */
  lemma StaleDecisionsNeverReachACpu(cfg: Config, s: State, es: seq<Event>, r: Handled)
    requires Initial(cfg, s) && IsRun(cfg, s, es)
    requires r in After(cfg, s, es).h.handled && |After(cfg, s, es).h.maskLog| < TWO64
    requires !r.msg.exiting && r.live && !r.msg.anyCpu && 0 <= r.msg.cpu < MAX_CPUS
    ensures ExactVerdict(After(cfg, s, es).h.maskLog, r)
  {
    InitialInv(cfg, s);
    InvHolds(cfg, s, es);
    var log := After(cfg, s, es).h.maskLog;
    assert RightVerdict(log, r);
    VerdictInShortHistory(log, r);
  }

  /** In every run: the messages handled, followed by those still on the ring, are the messages submitted,
      in order; and each counted user dispatch left a task in a queue or was counted as cancelled. */
  lemma MessagesAreHandledOnceInOrder(cfg: Config, s: State, es: seq<Event>)
    requires Initial(cfg, s) && IsRun(cfg, s, es)
    ensures var t := After(cfg, s, es);
            && t.h.submitted == Messages(t.h.handled) + t.dispatched
            && t.n.nrUser == |SlotsOfAll(t.h.handled)| + t.n.nrCancel
            && t.n.nrCancel == CountOutcome(t.h.handled, Cancelled)
            && t.n.nrBounce == CountOutcome(t.h.handled, Bounced)
  {
    InitialInv(cfg, s);
    InvHolds(cfg, s, es);
  }

  // Errors that take the scheduler down

  ghost predicate AnyInvalid(handled: seq<Handled>) {
    exists r :: r in handled && r.outcome == Invalid
  }

  /** A dispatch found the scheduler needed, and gone. */
  ghost predicate MissedScheduler(cfg: Config, s: State, es: seq<Event>)
    requires Shape(cfg, s) && IsRun(cfg, s, es)
  {
    es != [] && (MissedScheduler(cfg, s, es[..|es| - 1]) || Misses(cfg, After(cfg, s, es[..|es| - 1]), es[|es| - 1]))
  }

  predicate Misses(cfg: Config, s: State, e: Event) {
    e.Dispatch? && s.needed && cfg.userPid !in s.tasks
  }

  lemma HandlingFails(s: State, missed: bool)
    requires s.dispatched != [] && (s.aborted <==> missed || AnyInvalid(s.h.handled))
    ensures HandleFirst(s).aborted <==> missed || AnyInvalid(HandleFirst(s).h.handled)
  {
    var r := HandledAs(s.tasks, |s.h.maskLog|, s.dispatched[0]);
    var longer := s.h.handled + [r];
    assert forall x :: x in longer <==> x in s.h.handled || x == r;
    assert r in longer;
  }

  lemma {:induction false} DrainFails(s: State, batch: seq<Slot>, missed: bool)
    requires s.aborted <==> missed || AnyInvalid(s.h.handled)
    ensures Drain(s, batch).0.aborted <==> missed || AnyInvalid(Drain(s, batch).0.h.handled)
    decreases |s.dispatched|
  {
    if s.dispatched != [] {
      HandlingFails(s, missed);
      DrainFails(HandleFirst(s), batch + SlotsOf(s.dispatched[0], OutcomeOf(s.tasks, s.dispatched[0])), missed);
    }
  }

  lemma DispatchFails(cfg: Config, s: State, cpu: nat, missed: bool)
    requires Shape(cfg, s) && cpu < cfg.nrCpus && (s.aborted <==> missed || AnyInvalid(s.h.handled))
    ensures var t := DispatchStep(cfg, s, cpu);
            t.aborted <==> missed || Misses(cfg, s, Dispatch(cpu)) || AnyInvalid(t.h.handled)
  {
    DrainFails(FlagCleared(cfg, s), FirstBatch(cfg, s), missed || Misses(cfg, s, Dispatch(cpu)));
  }

  /** The error flag and what was handled are the same. */
  ghost predicate SameErrors(s: State, t: State) {
    t.aborted == s.aborted && t.h.handled == s.h.handled
  }

  lemma QuietChangeDoesNotFail(s: State, t: State)
    requires QuietChange(s, t)
    ensures SameErrors(s, t)
  {
  }

  lemma QuietStepsDoNotFail(cfg: Config, s: State, e: Event)
    requires Shape(cfg, s) && CanStep(cfg, s, e) && Quiet(e)
    ensures SameErrors(s, Step(cfg, s, e))
  {
    QuietStepsChangeLittle(cfg, s, e);
    QuietChangeDoesNotFail(s, Step(cfg, s, e));
  }

  lemma TaskStepsDoNotFail(cfg: Config, s: State, e: Event)
    requires Shape(cfg, s) && CanStep(cfg, s, e) && !e.Dispatch? && !e.Enqueue? && !Quiet(e)
    ensures SameErrors(s, Step(cfg, s, e))
  {
  }

  lemma EnqueueDoesNotFail(cfg: Config, s: State, p: Pid, cpu: nat, full: bool)
    requires |s.dsqs| == DSQ_COUNT && cpu < |s.local| && p in s.tasks
    ensures SameErrors(s, EnqueueStep(cfg, s, p, cpu, full))
  {
  }

  lemma OthersDoNotFail(cfg: Config, s: State, e: Event)
    requires Shape(cfg, s) && CanStep(cfg, s, e) && !e.Dispatch?
    ensures SameErrors(s, Step(cfg, s, e))
  {
    if e.Enqueue? {
      EnqueueDoesNotFail(cfg, s, e.p, e.cpu, e.full);
    } else if Quiet(e) {
      QuietStepsDoNotFail(cfg, s, e);
    } else {
      TaskStepsDoNotFail(cfg, s, e);
    }
  }

  /** In every run the error that takes the scheduler down was raised exactly if some message for a live task
      named an invalid CPU, or some dispatch found the scheduler needed, and gone. */
  lemma {:induction false} AbortedIff(cfg: Config, s: State, es: seq<Event>)
    requires Initial(cfg, s) && IsRun(cfg, s, es)
    ensures After(cfg, s, es).aborted <==> MissedScheduler(cfg, s, es) || AnyInvalid(After(cfg, s, es).h.handled)
  {
    if es == [] {
    } else {
      var front, e := es[..|es| - 1], es[|es| - 1];
      AbortedIff(cfg, s, front);
      if e.Dispatch? {
        DispatchFails(cfg, After(cfg, s, front), e.cpu, MissedScheduler(cfg, s, front));
      } else {
        OthersDoNotFail(cfg, After(cfg, s, front), e);
      }
    }
  }

  // The counter of queued tasks

  /** Whether an event sends a message to user space. */
  predicate Sends(cfg: Config, s: State, e: Event) {
    match e
    case Exit(_, full, _) => !full
    case Enqueue(p, _, full) =>
      && p != cfg.userPid && !full && !(!cfg.fullUser && s.fifo)
      && (p in s.tasks ==> !(s.tasks[p].kthread && |s.tasks[p].mask| == 1))
    case _ => false
  }

  /** Messages sent since the last reset of the counter. */
  ghost function SentSinceReset(cfg: Config, s: State, es: seq<Event>): nat
    requires Shape(cfg, s) && IsRun(cfg, s, es)
  {
    if es == [] || es[|es| - 1].UserReset? then 0
    else SentSinceReset(cfg, s, es[..|es| - 1]) + SentBy(cfg, After(cfg, s, es[..|es| - 1]), es[|es| - 1])
  }

  function SentBy(cfg: Config, s: State, e: Event): nat {
    if Sends(cfg, s, e) then 1 else 0
  }

  /** Messages sent since user space last found the ring empty. */
  ghost function SentSinceEmpty(cfg: Config, s: State, es: seq<Event>): nat
    requires Shape(cfg, s) && IsRun(cfg, s, es)
  {
    if es == [] || es[|es| - 1].UserSeesEmpty? then 0
    else SentSinceEmpty(cfg, s, es[..|es| - 1]) + SentBy(cfg, After(cfg, s, es[..|es| - 1]), es[|es| - 1])
  }

  /** Messages sent between the moment user space found the ring empty and the last reset that followed. */
  ghost function RacedReset(cfg: Config, s: State, es: seq<Event>): nat
    requires Shape(cfg, s) && IsRun(cfg, s, es)
  {
    if es == [] then 0
    else if es[|es| - 1].UserReset? then SentSinceEmpty(cfg, s, es[..|es| - 1])
    else RacedReset(cfg, s, es[..|es| - 1])
  }

  /** Messages user space has received since the last reset. */
  function ReceivedSinceReset(es: seq<Event>): nat {
    if es == [] || es[|es| - 1].UserReset? then 0
    else ReceivedSinceReset(es[..|es| - 1]) + if es[|es| - 1].UserReceive? then 1 else 0
  }

  /** What an event does to the ring and its counter. */
  ghost predicate RingMoves(cfg: Config, s: State, e: Event, t: State) {
    && |t.queued| == |s.queued| + SentBy(cfg, s, e) - (if e.UserReceive? then 1 else 0)
    && t.n.nrQueued == (if e.UserReset? then 0 else s.n.nrQueued + SentBy(cfg, s, e))
    && t.n.nrScheduled == (if e.UserReset? then 0 else s.n.nrScheduled)
    && t.sawEmpty == (e.UserSeesEmpty? || (s.sawEmpty && !e.UserReset?))
  }

  lemma EnqueueMovesRing(cfg: Config, s: State, p: Pid, cpu: nat, full: bool)
    requires |s.dsqs| == DSQ_COUNT && cpu < |s.local| && p in s.tasks
    ensures RingMoves(cfg, s, Enqueue(p, cpu, full), EnqueueStep(cfg, s, p, cpu, full))
  {
  }

  lemma QuietMovesRing(cfg: Config, s: State, e: Event)
    requires Shape(cfg, s) && CanStep(cfg, s, e) && Quiet(e)
    ensures RingMoves(cfg, s, e, Step(cfg, s, e))
  {
  }

  lemma TaskStepMovesRing(cfg: Config, s: State, e: Event)
    requires Shape(cfg, s) && CanStep(cfg, s, e)
    requires e.Init? || e.Exit? || e.Die? || e.SetCpumask? || e.UserReceive? || e.UserSubmit?
    ensures RingMoves(cfg, s, e, Step(cfg, s, e))
  {
  }

  lemma StepMovesRing(cfg: Config, s: State, e: Event)
    requires Shape(cfg, s) && CanStep(cfg, s, e)
    ensures RingMoves(cfg, s, e, Step(cfg, s, e))
  {
    if e.Dispatch? {
      DispatchKeepsCpus(cfg, s, e.cpu);
    } else if Quiet(e) {
      QuietMovesRing(cfg, s, e);
    } else if e.Enqueue? {
      EnqueueMovesRing(cfg, s, e.p, e.cpu, e.full);
    } else {
      TaskStepMovesRing(cfg, s, e);
    }
  }

  /** In every run the counter is the messages sent since the last reset; the ring holds those, less the ones
      received since, and the ones that raced the reset; and while a reset is due, those sent since the ring
      was found empty. */
  ghost predicate RingBalance(cfg: Config, s: State, es: seq<Event>)
    requires Shape(cfg, s) && IsRun(cfg, s, es)
  {
    var t := After(cfg, s, es);
    && t.n.nrQueued == SentSinceReset(cfg, s, es) && t.n.nrScheduled == 0
    && |t.queued| + ReceivedSinceReset(es) == RacedReset(cfg, s, es) + SentSinceReset(cfg, s, es)
    && (t.sawEmpty ==> |t.queued| == SentSinceEmpty(cfg, s, es))
  }

  lemma {:induction false} RingIsBalanced(cfg: Config, s: State, es: seq<Event>)
    requires Initial(cfg, s) && IsRun(cfg, s, es)
    ensures RingBalance(cfg, s, es)
  {
    if es == [] {
    } else {
      RingIsBalanced(cfg, s, es[..|es| - 1]);
      StepMovesRing(cfg, After(cfg, s, es[..|es| - 1]), es[|es| - 1]);
    }
  }

  /** So in every run nr_queued is too low exactly while fewer messages were received since the last reset than
      were sent between finding the ring empty and that reset; and it is too low by the difference. */
  lemma ResetUndercountsIff(cfg: Config, s: State, es: seq<Event>)
    requires Initial(cfg, s) && IsRun(cfg, s, es)
    ensures var t := After(cfg, s, es);
            && |t.queued| - t.n.nrQueued == RacedReset(cfg, s, es) - ReceivedSinceReset(es)
            && (t.n.nrQueued < |t.queued| <==> ReceivedSinceReset(es) < RacedReset(cfg, s, es))
  {
    RingIsBalanced(cfg, s, es);
  }

  /** No message is sent between the moment user space finds the ring empty and its reset of the counter. */
  ghost predicate Unraced(cfg: Config, s: State, es: seq<Event>)
    requires Shape(cfg, s) && IsRun(cfg, s, es)
  {
    es == [] || (
      && Unraced(cfg, s, es[..|es| - 1])
      && var t := After(cfg, s, es[..|es| - 1]); t.sawEmpty ==> !Sends(cfg, t, es[|es| - 1]))
  }

  lemma {:induction false} UnracedResetsLoseNothing(cfg: Config, s: State, es: seq<Event>)
    requires Initial(cfg, s) && IsRun(cfg, s, es) && Unraced(cfg, s, es)
    ensures RacedReset(cfg, s, es) == 0 && (After(cfg, s, es).sawEmpty ==> SentSinceEmpty(cfg, s, es) == 0)
  {
    if es == [] {
    } else {
      UnracedResetsLoseNothing(cfg, s, es[..|es| - 1]);
      StepMovesRing(cfg, After(cfg, s, es[..|es| - 1]), es[|es| - 1]);
    }
  }

  /** So without such a race nr_queued is never below the number of messages on the ring. */
  lemma QueueIsNeverUndercounted(cfg: Config, s: State, es: seq<Event>)
    requires Initial(cfg, s) && IsRun(cfg, s, es) && Unraced(cfg, s, es)
    ensures |After(cfg, s, es).queued| <= After(cfg, s, es).n.nrQueued
    ensures After(cfg, s, es).sawEmpty ==> After(cfg, s, es).queued == []
  {
    UnracedResetsLoseNothing(cfg, s, es);
    RingIsBalanced(cfg, s, es);
  }

  lemma OneMoreEvent(cfg: Config, s: State, es: seq<Event>, e: Event)
    requires Shape(cfg, s) && IsRun(cfg, s, es) && CanStep(cfg, After(cfg, s, es), e)
    ensures IsRun(cfg, s, es + [e]) && After(cfg, s, es + [e]) == Step(cfg, After(cfg, s, es), e)
  {
    assert (es + [e])[..|es|] == es;
  }

  /** Such a run: a task is enqueued just after user space found the ring empty. Its message is on the ring,
      and nothing is counted. */
  lemma RacedResetLosesMessage(cfg: Config, s: State) returns (es: seq<Event>)
    requires Initial(cfg, s)
    ensures IsRun(cfg, s, es) && |After(cfg, s, es).queued| == 1 && After(cfg, s, es).n.nrQueued == 0
  {
    var p := cfg.userPid + 1;
    es := [];
    OneMoreEvent(cfg, s, es, Init(p, {0}, false));
    es := es + [Init(p, {0}, false)];
    OneMoreEvent(cfg, s, es, UserSeesEmpty);
    es := es + [UserSeesEmpty];
    OneMoreEvent(cfg, s, es, Enqueue(p, 0, false));
    es := es + [Enqueue(p, 0, false)];
    OneMoreEvent(cfg, s, es, UserReset);
    es := es + [UserReset];
  }

  // Wake-ups of the user-space scheduler

  /** Whether an event at the end of a run asks for the scheduler: a task other than the scheduler stops, a CPU goes
      idle and messages were sent since the last reset, the scheduler is preempted, or the timer ticks. */
  ghost predicate Asks(cfg: Config, s: State, es: seq<Event>, e: Event)
    requires Shape(cfg, s) && IsRun(cfg, s, es)
  {
    match e
    case Stop(p, _) => p != cfg.userPid
    case UpdateIdle(_, idle) => idle && SentSinceReset(cfg, s, es) > 0
    case CpuRelease(p) => p == cfg.userPid
    case Timer => true
    case _ => false
  }

  lemma RequestsAsk(cfg: Config, s: State, es: seq<Event>, e: Event)
    requires Initial(cfg, s) && IsRun(cfg, s, es)
    ensures IsRequest(cfg, After(cfg, s, es), e) <==> Asks(cfg, s, es, e)
  {
    RingIsBalanced(cfg, s, es);
  }

  /** A request came since the last dispatch. */
  ghost predicate Requested(cfg: Config, s: State, es: seq<Event>)
    requires Shape(cfg, s) && IsRun(cfg, s, es)
  {
    es != [] && !es[|es| - 1].Dispatch? &&
    (Requested(cfg, s, es[..|es| - 1]) || Asks(cfg, s, es[..|es| - 1], es[|es| - 1]))
  }

  ghost function Requests(cfg: Config, s: State, es: seq<Event>): nat
    requires Shape(cfg, s) && IsRun(cfg, s, es)
  {
    if es == [] then 0
    else Requests(cfg, s, es[..|es| - 1]) +
         if Asks(cfg, s, es[..|es| - 1], es[|es| - 1]) then 1 else 0
  }

  /** How often dispatch has put the user-space scheduler in its batch. */
  ghost function SchedulerRuns(cfg: Config, s: State, es: seq<Event>): nat
    requires Shape(cfg, s) && IsRun(cfg, s, es)
  {
    if es == [] then 0
    else SchedulerRuns(cfg, s, es[..|es| - 1]) +
         if es[|es| - 1].Dispatch? && FirstBatch(cfg, After(cfg, s, es[..|es| - 1])) != [] then 1 else 0
  }

  lemma NeededAfterStep(cfg: Config, s: State, e: Event)
    requires Shape(cfg, s) && CanStep(cfg, s, e)
    ensures Step(cfg, s, e).needed <==> !e.Dispatch? && (s.needed || IsRequest(cfg, s, e))
  {
    if !e.Run? && !e.Stop? && !e.Timer? {
      StepsKeepCpus(cfg, s, e);
    }
  }

  /** In every run the wake-up flag is set exactly if a request came since the last dispatch, so none is
      lost; and the scheduler is never dispatched more often than it was asked for. */
  lemma {:induction false} WakeupsAreExact(cfg: Config, s: State, es: seq<Event>)
    requires Initial(cfg, s) && IsRun(cfg, s, es)
    ensures After(cfg, s, es).needed <==> Requested(cfg, s, es)
    ensures SchedulerRuns(cfg, s, es) + (if After(cfg, s, es).needed then 1 else 0) <= Requests(cfg, s, es)
  {
    if es == [] {
    } else {
      WakeupsAreExact(cfg, s, es[..|es| - 1]);
      NeededAfterStep(cfg, After(cfg, s, es[..|es| - 1]), es[|es| - 1]);
      RequestsAsk(cfg, s, es[..|es| - 1], es[|es| - 1]);
    }
  }

  lemma {:induction false} RequestStands(cfg: Config, s: State, es: seq<Event>, k: nat)
    requires Shape(cfg, s) && IsRun(cfg, s, es)
    requires k < |es| && es[k].Timer? && forall i :: k < i < |es| ==> !es[i].Dispatch?
    ensures Requested(cfg, s, es)
  {
    if k < |es| - 1 {
      RequestStands(cfg, s, es[..|es| - 1], k);
    }
  }

  /** After a timer tick the next dispatch runs the scheduler, whatever happened in between. */
  lemma TickMakesNextDispatchRunScheduler(cfg: Config, s: State, es: seq<Event>, k: nat)
    requires Initial(cfg, s) && IsRun(cfg, s, es)
    requires k < |es| && es[k].Timer? && forall i :: k < i < |es| ==> !es[i].Dispatch?
    ensures cfg.userPid in After(cfg, s, es).tasks ==>
              FirstBatch(cfg, After(cfg, s, es)) == [Slot(cfg.userPid, SHARED_DSQ, false)]
  {
    RequestStands(cfg, s, es, k);
    WakeupsAreExact(cfg, s, es);
  }

  // FIFO mode in the running backend

  /** What the timer ticks of a run see. */
  ghost function TicksOf(cfg: Config, s: State, es: seq<Event>): seq<Tick>
    requires Shape(cfg, s) && IsRun(cfg, s, es)
  {
    if es == [] then []
    else TicksOf(cfg, s, es[..|es| - 1]) + TickIn(After(cfg, s, es[..|es| - 1]), es[|es| - 1])
  }

  function TickIn(s: State, e: Event): seq<Tick> {
    if e.Timer? then [Tick(Wrap(s.n.nrQueued + s.n.nrScheduled), s.n.nrRunning)] else []
  }

  lemma TickInState(cfg: Config, s0: State, ticks: seq<Tick>, s: State, e: Event)
    requires Shape(cfg, s) && CanStep(cfg, s, e)
    requires (s.fifo, s.waitingAvg) == AfterTicks(cfg, s0.fifo, s0.waitingAvg, ticks)
    ensures (Step(cfg, s, e).fifo, Step(cfg, s, e).waitingAvg)
         == AfterTicks(cfg, s0.fifo, s0.waitingAvg, ticks + TickIn(s, e))
  {
    OnlyTicksChangeFifo(cfg, s, e);
    if e.Timer? {
      assert (ticks + TickIn(s, e))[..|ticks|] == ticks;
    } else {
      assert ticks + [] == ticks;
    }
  }

  lemma {:induction false} FifoFollows(cfg: Config, s: State, es: seq<Event>)
    requires Shape(cfg, s) && IsRun(cfg, s, es)
    ensures (After(cfg, s, es).fifo, After(cfg, s, es).waitingAvg)
         == AfterTicks(cfg, s.fifo, s.waitingAvg, TicksOf(cfg, s, es))
  {
    if es == [] {
    } else {
      FifoFollows(cfg, s, es[..|es| - 1]);
      TickInState(cfg, s, TicksOf(cfg, s, es[..|es| - 1]), After(cfg, s, es[..|es| - 1]), es[|es| - 1]);
    }
  }

  /** FIFO mode and its moving average are what the ticks of the run make them, so the results of module
      FifoMode hold of every run; and FIFO mode implies that it is enabled and that the average is zero. */
  lemma FifoFollowsTicks(cfg: Config, s: State, es: seq<Event>)
    requires Initial(cfg, s) && IsRun(cfg, s, es)
    ensures (After(cfg, s, es).fifo, After(cfg, s, es).waitingAvg)
         == AfterTicks(cfg, false, 0, TicksOf(cfg, s, es))
    ensures After(cfg, s, es).fifo ==> cfg.fifoSched && After(cfg, s, es).waitingAvg == 0
  {
    FifoFollows(cfg, s, es);
    InitialInv(cfg, s);
    InvHolds(cfg, s, es);
  }

  // Leaving FIFO mode

  /** Of the first n CPUs, those that run nothing, or the user-space scheduler. */
  ghost function FreeCpus(cpuMap: seq<Pid>, n: nat): set<nat> {
    set c: nat | c < n && c < |cpuMap| && cpuMap[c] == 0
  }

  function CpuIds(n: nat): (r: set<nat>)
    ensures |r| == n && forall c: nat :: c in r <==> c < n
  {
    if n == 0 then {} else CpuIds(n - 1) + {n - 1}
  }

  lemma FreeAndBusyCpus(cpuMap: seq<Pid>, n: nat)
    requires n <= |cpuMap| && forall c :: n <= c < |cpuMap| ==> cpuMap[c] == 0
    ensures |BusyCpus(cpuMap)| + |FreeCpus(cpuMap, n)| == n
  {
    var busy, free := BusyCpus(cpuMap), FreeCpus(cpuMap, n);
    assert busy + free == CpuIds(n);
    assert busy !! free;
  }

  /** In every run a tick in FIFO mode leaves it exactly if at most one CPU is free. */
  lemma FifoIsLeftIff(cfg: Config, s: State, es: seq<Event>)
    requires Initial(cfg, s) && IsRun(cfg, s, es) && After(cfg, s, es).fifo
    ensures !TimerStep(cfg, After(cfg, s, es)).fifo <==> |FreeCpus(After(cfg, s, es).cpuMap, cfg.nrCpus)| <= 1
  {
    InitialInv(cfg, s);
    InvHolds(cfg, s, es);
    FreeAndBusyCpus(After(cfg, s, es).cpuMap, cfg.nrCpus);
  }
}
