/** Safety of the dispatch protocol over all runs: stale decisions never reach a CPU, messages are handled
    once and in order, counters and wake-ups are exact. */
module RustlandProtocol {
  import opened Words
  import opened Rustland
  import opened Subsequences

  // Counting cpumask changes

  function Hits(log: seq<Pid>, p: Pid): nat {
    if log == [] then 0 else Hits(log[..|log| - 1], p) + if log[|log| - 1] == p then 1 else 0
  }

  lemma {:induction false} HitsSplit(log: seq<Pid>, k: nat, p: Pid)
    requires k <= |log|
    ensures Hits(log, p) == Hits(log[..k], p) + Hits(log[k..], p)
  {
    if k == |log| {
      assert log[..k] == log && log[k..] == [];
    } else {
      var front := log[..|log| - 1];
      HitsSplit(front, k, p);
      assert front[..k] == log[..k];
      assert log[k..][..|log[k..]| - 1] == front[k..];
    }
  }

  lemma {:induction false} NoHitsIff(log: seq<Pid>, p: Pid)
    ensures Hits(log, p) == 0 <==> p !in log
    ensures Hits(log, p) <= |log|
  {
    if log == [] {
    } else {
      NoHitsIff(log[..|log| - 1], p);
      assert log == log[..|log| - 1] + [log[|log| - 1]];
    }
  }

  /** The cpumask changes of a task between two points of the history. */
  function HitsBetween(log: seq<Pid>, p: Pid, a: nat, b: nat): nat
    requires a <= b <= |log|
  {
    Hits(log[a..b], p)
  }

  lemma CountersDifferIff(log: seq<Pid>, p: Pid, stamp: nat)
    requires stamp <= |log|
    ensures Wrap(Hits(log, p)) == Wrap(Hits(log[..stamp], p)) <==> Wrap(HitsBetween(log, p, stamp, |log|)) == 0
  {
    HitsSplit(log, stamp, p);
    assert log[stamp..|log|] == log[stamp..];
    var a, d := Hits(log[..stamp], p), HitsBetween(log, p, stamp, |log|);
    WrapOfSum(a, d);
    if Wrap(d) == 0 {
      WrapOfShifted(a, a + d, d / TWO64);
    }
    if Wrap(a + d) == Wrap(a) {
      var k := (a + d) / TWO64 - a / TWO64;
      assert d == TWO64 * k;
      ModOfSum(k, 0);
    }
  }

  // The generation invariant

  /** A message that is not an exit notice carries the generation of its task when it was stamped. */
  ghost predicate Stamped(log: seq<Pid>, pid: Pid, cnt: U64, exiting: bool, stamp: nat) {
    stamp <= |log| && (!exiting ==> cnt == Wrap(Hits(log[..stamp], pid)))
  }

  ghost predicate StampedQ(log: seq<Pid>, q: QMsg) {
    Stamped(log, q.pid, q.cnt, q.exiting, q.stamp)
  }

  ghost predicate StampedD(log: seq<Pid>, m: DMsg) {
    Stamped(log, m.pid, m.cnt, m.exiting, m.stamp)
  }

  /** A message is ignored exactly if its task is gone. One for a live task and a valid CPU, without RL_CPU_ANY,
      came to what the cpumask changes since its stamp and the mask at the time demand. */
  ghost predicate RightVerdict(log: seq<Pid>, r: Handled) {
    && r.msg.stamp <= r.at <= |log|
    && (r.outcome == Gone <==> !r.live)
    && (!r.msg.exiting && r.live && !r.msg.anyCpu && 0 <= r.msg.cpu < MAX_CPUS ==>
          var stale := Wrap(HitsBetween(log, r.msg.pid, r.msg.stamp, r.at)) != 0;
          && (r.outcome == Cancelled <==> stale)
          && (r.outcome == Bounced <==> !stale && r.msg.cpu !in r.mask)
          && (r.outcome == OnCpu(r.msg.cpu) <==> !stale && r.msg.cpu in r.mask))
    && (r.outcome.OnCpu? ==> r.outcome.cpu == r.msg.cpu && !r.msg.anyCpu && 0 <= r.msg.cpu < MAX_CPUS)
    && (r.live ==>
          && (r.outcome == Shared <==> r.msg.anyCpu)
          && (r.outcome == Invalid <==> !r.msg.anyCpu && !(0 <= r.msg.cpu < MAX_CPUS)))
  }

  ghost predicate GenerationInv(s: State) {
    && (forall p :: p in s.tasks ==> s.tasks[p].cnt == Wrap(Hits(s.h.maskLog, p)))
    && (forall p :: p in s.h.maskLog ==> p in s.tasks || p in s.dead)
    && (forall q :: q in s.queued ==> StampedQ(s.h.maskLog, q))
    && (forall q :: q in s.received ==> StampedQ(s.h.maskLog, q))
    && (forall m :: m in s.dispatched ==> StampedD(s.h.maskLog, m))
    && (forall r :: r in s.h.handled ==> RightVerdict(s.h.maskLog, r))
  }

  lemma HandleKeepsGeneration(s: State)
    requires GenerationInv(s) && s.dispatched != []
    ensures GenerationInv(HandleFirst(s))
  {
    var m := s.dispatched[0];
    var r := HandledAs(s.tasks, |s.h.maskLog|, m);
    assert StampedD(s.h.maskLog, m);
    CountersDifferIff(s.h.maskLog, m.pid, m.stamp);
    assert RightVerdict(s.h.maskLog, r);
    var t := HandleFirst(s);
    forall x | x in t.h.handled
      ensures RightVerdict(t.h.maskLog, x)
    {
      assert x in s.h.handled || x == r;
    }
  }

  lemma {:induction false} DrainKeepsGeneration(s: State, batch: seq<Slot>)
    requires GenerationInv(s)
    ensures GenerationInv(Drain(s, batch).0)
    decreases |s.dispatched|
  {
    if s.dispatched != [] {
      HandleKeepsGeneration(s);
      DrainKeepsGeneration(HandleFirst(s), batch + SlotsOf(s.dispatched[0], OutcomeOf(s.tasks, s.dispatched[0])));
    }
  }

  lemma DispatchKeepsGeneration(cfg: Config, s: State, cpu: nat)
    requires GenerationInv(s) && Shape(cfg, s) && cpu < cfg.nrCpus
    ensures GenerationInv(DispatchStep(cfg, s, cpu))
  {
    var s0 := FlagCleared(cfg, s);
    var s1 := Drain(s0, FirstBatch(cfg, s)).0;
    DrainKeepsGeneration(s0, FirstBatch(cfg, s));
    var t := DispatchStep(cfg, s, cpu);
    DrainKeepsQueues(s0, FirstBatch(cfg, s));
    assert t.tasks == s1.tasks && t.dead == s1.dead && t.queued == s1.queued && t.received == s1.received;
    assert t.dispatched == s1.dispatched && t.h == s1.h;
  }

  lemma LogGrowthKeepsVerdicts(log: seq<Pid>, p: Pid, r: Handled)
    requires RightVerdict(log, r)
    ensures RightVerdict(log + [p], r)
  {
    assert (log + [p])[r.msg.stamp..r.at] == log[r.msg.stamp..r.at];
  }

  lemma LogGrowthKeepsStamps(log: seq<Pid>, p: Pid, pid: Pid, cnt: U64, exiting: bool, stamp: nat)
    requires Stamped(log, pid, cnt, exiting, stamp)
    ensures Stamped(log + [p], pid, cnt, exiting, stamp)
  {
    assert (log + [p])[..stamp] == log[..stamp];
  }

  lemma LogGrowthKeepsMessages(s: State, p: Pid)
    requires GenerationInv(s)
    ensures forall q :: q in s.queued || q in s.received ==> StampedQ(s.h.maskLog + [p], q)
    ensures forall m :: m in s.dispatched ==> StampedD(s.h.maskLog + [p], m)
    ensures forall r :: r in s.h.handled ==> RightVerdict(s.h.maskLog + [p], r)
  {
    var log := s.h.maskLog;
    forall q | q in s.queued || q in s.received ensures StampedQ(log + [p], q) {
      LogGrowthKeepsStamps(log, p, q.pid, q.cnt, q.exiting, q.stamp);
    }
    forall m | m in s.dispatched ensures StampedD(log + [p], m) {
      LogGrowthKeepsStamps(log, p, m.pid, m.cnt, m.exiting, m.stamp);
    }
    forall r | r in s.h.handled ensures RightVerdict(log + [p], r) {
      LogGrowthKeepsVerdicts(log, p, r);
    }
  }

  lemma SetCpumaskKeepsGeneration(cfg: Config, s: State, p: Pid, mask: set<nat>)
    requires GenerationInv(s) && Shape(cfg, s) && CanStep(cfg, s, SetCpumask(p, mask))
    ensures GenerationInv(Step(cfg, s, SetCpumask(p, mask)))
  {
    var log := s.h.maskLog;
    assert (log + [p])[..|log|] == log;
    WrapOfSum(Hits(log, p), 1);
    LogGrowthKeepsMessages(s, p);
  }

  lemma SendKeepsGeneration(s: State, q: QMsg, full: bool)
    requires GenerationInv(s) && StampedQ(s.h.maskLog, q)
    ensures GenerationInv(Send(s, q, full))
  {
  }

  /** The parts of the state the invariant is about are the same. */
  ghost predicate SameMessages(s: State, t: State) {
    && t.tasks == s.tasks && t.dead == s.dead && t.h == s.h
    && t.queued == s.queued && t.received == s.received && t.dispatched == s.dispatched
  }

  lemma GenerationFrame(s: State, t: State)
    requires GenerationInv(s) && SameMessages(s, t)
    ensures GenerationInv(t)
  {
  }

  predicate Quiet(e: Event) {
    e.Run? || e.Stop? || e.UpdateIdle? || e.CpuRelease? || e.Timer? || e.Dequeue? || e.UserSeesEmpty? || e.UserReset?
  }

  /** All that a quiet step may change. */
  ghost predicate QuietChange(s: State, t: State) {
    t == s.(dsqs := t.dsqs, needed := t.needed, fifo := t.fifo, waitingAvg := t.waitingAvg,
            cpuMap := t.cpuMap, onCpu := t.onCpu, sawEmpty := t.sawEmpty,
            n := s.n.(nrQueued := t.n.nrQueued, nrScheduled := t.n.nrScheduled, nrRunning := t.n.nrRunning))
  }

  lemma CpuStepsAreQuiet(cfg: Config, s: State, p: Pid, cpu: nat)
    requires cpu < |s.cpuMap|
    ensures QuietChange(s, RunStep(cfg, s, p, cpu)) && QuietChange(s, StopStep(cfg, s, p, cpu))
  {
  }

  lemma TimerIsQuiet(cfg: Config, s: State)
    ensures QuietChange(s, TimerStep(cfg, s))
  {
  }

  lemma OtherQuietSteps(cfg: Config, s: State, e: Event)
    requires Shape(cfg, s) && CanStep(cfg, s, e) && Quiet(e) && !e.Run? && !e.Stop? && !e.Timer?
    ensures QuietChange(s, Step(cfg, s, e))
  {
  }

  lemma QuietStepsChangeLittle(cfg: Config, s: State, e: Event)
    requires Shape(cfg, s) && CanStep(cfg, s, e) && Quiet(e)
    ensures QuietChange(s, Step(cfg, s, e))
  {
    match e
    case Run(p, cpu) => CpuStepsAreQuiet(cfg, s, p, cpu);
    case Stop(p, cpu) => CpuStepsAreQuiet(cfg, s, p, cpu);
    case Timer => TimerIsQuiet(cfg, s);
    case _ => OtherQuietSteps(cfg, s, e);
  }

  lemma QuietChangeKeepsMessages(s: State, t: State)
    requires QuietChange(s, t)
    ensures SameMessages(s, t)
  {
  }

  lemma QuietStepsKeepMessages(cfg: Config, s: State, e: Event)
    requires Shape(cfg, s) && CanStep(cfg, s, e) && Quiet(e)
    ensures SameMessages(s, Step(cfg, s, e))
  {
    QuietStepsChangeLittle(cfg, s, e);
    QuietChangeKeepsMessages(s, Step(cfg, s, e));
  }

  lemma EnqueueSends(cfg: Config, s: State, p: Pid, cpu: nat, full: bool)
    requires Shape(cfg, s) && CanStep(cfg, s, Enqueue(p, cpu, full))
    ensures var t := EnqueueStep(cfg, s, p, cpu, full);
            SameMessages(s, t) || t == Send(s, QMsg(p, cpu, s.tasks[p].cnt, false, |s.h.maskLog|), false)
  {
  }

  lemma EnqueueKeepsGeneration(cfg: Config, s: State, p: Pid, cpu: nat, full: bool)
    requires GenerationInv(s) && Shape(cfg, s) && CanStep(cfg, s, Enqueue(p, cpu, full))
    ensures GenerationInv(EnqueueStep(cfg, s, p, cpu, full))
  {
    EnqueueSends(cfg, s, p, cpu, full);
    assert s.h.maskLog[..|s.h.maskLog|] == s.h.maskLog;
    SendKeepsGeneration(s, QMsg(p, cpu, s.tasks[p].cnt, false, |s.h.maskLog|), false);
    if SameMessages(s, EnqueueStep(cfg, s, p, cpu, full)) {
      GenerationFrame(s, EnqueueStep(cfg, s, p, cpu, full));
    }
  }

  lemma UserStepKeepsGeneration(cfg: Config, s: State, e: Event)
    requires GenerationInv(s) && Shape(cfg, s) && CanStep(cfg, s, e) && (e.UserReceive? || e.UserSubmit?)
    ensures GenerationInv(Step(cfg, s, e))
  {
    var t := Step(cfg, s, e);
    if e.UserReceive? {
      assert s.queued[0] in s.queued;
      assert forall q :: q in t.queued ==> q in s.queued;
    } else {
      var q :| q in s.received && DerivedFrom(e.m, q);
      assert StampedQ(s.h.maskLog, q);
    }
  }

  lemma LifeCycleKeepsGeneration(cfg: Config, s: State, e: Event)
    requires GenerationInv(s) && Shape(cfg, s) && CanStep(cfg, s, e) && (e.Init? || e.Die?)
    ensures GenerationInv(Step(cfg, s, e))
  {
    NoHitsIff(s.h.maskLog, e.p);
  }

  lemma StepKeepsGeneration(cfg: Config, s: State, e: Event)
    requires GenerationInv(s) && Shape(cfg, s) && CanStep(cfg, s, e)
    ensures GenerationInv(Step(cfg, s, e))
  {
    match e
    case Dispatch(cpu) => DispatchKeepsGeneration(cfg, s, cpu);
    case SetCpumask(p, mask) => SetCpumaskKeepsGeneration(cfg, s, p, mask);
    case Enqueue(p, cpu, full) => EnqueueKeepsGeneration(cfg, s, p, cpu, full);
    case Exit(p, full, garbage) => SendKeepsGeneration(s, QMsg(p, -1, garbage, true, |s.h.maskLog|), full);
    case UserReceive => UserStepKeepsGeneration(cfg, s, e);
    case UserSubmit(_) => UserStepKeepsGeneration(cfg, s, e);
    case Init(_, _, _) => LifeCycleKeepsGeneration(cfg, s, e);
    case Die(_) => LifeCycleKeepsGeneration(cfg, s, e);
    case _ =>
      QuietStepsKeepMessages(cfg, s, e);
      GenerationFrame(s, Step(cfg, s, e));
  }

  // The drain

  /** All the slots a sequence of handled messages leaves in batches, in order. */
  function SlotsOfAll(handled: seq<Handled>): seq<Slot> {
    if handled == [] then []
    else SlotsOfAll(handled[..|handled| - 1]) + SlotsOf(handled[|handled| - 1].msg, handled[|handled| - 1].outcome)
  }

  function Messages(handled: seq<Handled>): (r: seq<DMsg>)
    ensures |r| == |handled| && forall i :: 0 <= i < |r| ==> r[i] == handled[i].msg
  {
    seq(|handled|, i requires 0 <= i < |handled| => handled[i].msg)
  }

  function CountOutcome(handled: seq<Handled>, o: Outcome): nat {
    if handled == [] then 0
    else CountOutcome(handled[..|handled| - 1], o) + if handled[|handled| - 1].outcome == o then 1 else 0
  }

  /** Messages are handled once each, in the order user space submitted them, and the counters are exact:
      every counted user dispatch left one task in a batch or was counted as cancelled. */
  ghost predicate DrainInv(s: State) {
    && s.h.submitted == Messages(s.h.handled) + s.dispatched
    && s.n.nrUser == |SlotsOfAll(s.h.handled)| + s.n.nrCancel
    && s.n.nrCancel == CountOutcome(s.h.handled, Cancelled)
    && s.n.nrBounce == CountOutcome(s.h.handled, Bounced)
  }

  lemma HandleKeepsDrainInv(s: State)
    requires DrainInv(s) && s.dispatched != []
    ensures DrainInv(HandleFirst(s))
    ensures SlotsOfAll(HandleFirst(s).h.handled)
         == SlotsOfAll(s.h.handled) + SlotsOf(s.dispatched[0], OutcomeOf(s.tasks, s.dispatched[0]))
  {
    var t := HandleFirst(s);
    assert t.h.handled[..|s.h.handled|] == s.h.handled;
    assert Messages(t.h.handled) == Messages(s.h.handled) + [s.dispatched[0]];
    assert s.dispatched == [s.dispatched[0]] + s.dispatched[1..];
  }

  /** One drain, started with room in the batch: no message is ever dispatched with zero free slots, what
      the messages leave in the batch is exactly what was handled, and the drain stops only when the ring
      is empty or the batch is full. */
  lemma {:induction false} DrainIsLossless(s: State, batch: seq<Slot>)
    requires DrainInv(s) && |batch| < MAX_DISPATCH_SLOT
    ensures var (t, batch') := Drain(s, batch);
            && DrainInv(t) && t.h.submitted == s.h.submitted
            && |batch'| <= MAX_DISPATCH_SLOT
            && (t.dispatched == [] || |batch'| == MAX_DISPATCH_SLOT)
            && batch <= batch'
            && SlotsOfAll(t.h.handled) == SlotsOfAll(s.h.handled) + batch'[|batch|..]
    decreases |s.dispatched|
  {
    if s.dispatched != [] {
      HandleKeepsDrainInv(s);
      var o := OutcomeOf(s.tasks, s.dispatched[0]);
      var added := SlotsOf(s.dispatched[0], o);
      if o != Gone && |batch + added| >= MAX_DISPATCH_SLOT {
      } else {
        DrainIsLossless(HandleFirst(s), batch + added);
        SplitSuffix(Drain(HandleFirst(s), batch + added).1, batch, added);
        AppendAssociates(SlotsOfAll(s.h.handled), added, Drain(HandleFirst(s), batch + added).1[|batch + added|..]);
      }
    }
  }

  lemma SplitSuffix<T>(all: seq<T>, a: seq<T>, b: seq<T>)
    requires a + b <= all
    ensures a <= all && all[|a|..] == b + all[|a + b|..]
  {
    assert all == a + b + all[|a + b|..];
  }

  lemma AppendAssociates<T>(a: seq<T>, b: seq<T>, c: seq<T>)
    ensures (a + b) + c == a + (b + c)
  {
  }

  lemma DrainFrame(s: State, t: State)
    requires DrainInv(s) && t.dispatched == s.dispatched && t.h.submitted == s.h.submitted && t.h.handled == s.h.handled
    requires t.n.nrUser == s.n.nrUser && t.n.nrCancel == s.n.nrCancel && t.n.nrBounce == s.n.nrBounce
    ensures DrainInv(t)
  {
  }

  /** What rustland_dispatch does to the ring and to the batch, which starts with at most one slot taken
      by the user-space scheduler. */
  lemma DispatchDrains(cfg: Config, s: State, cpu: nat) returns (batch: seq<Slot>)
    requires DrainInv(s) && Shape(cfg, s) && cpu < cfg.nrCpus
    ensures var t := DispatchStep(cfg, s, cpu);
            && DrainInv(t) && t.h.submitted == s.h.submitted
            && FirstBatch(cfg, s) <= batch && |batch| <= MAX_DISPATCH_SLOT
            && (t.dispatched == [] || |batch| == MAX_DISPATCH_SLOT)
            && SlotsOfAll(t.h.handled) == SlotsOfAll(s.h.handled) + batch[|FirstBatch(cfg, s)|..]
            && var u := ConsumeInto(ConsumeInto(s.(dsqs := Flush(s.dsqs, batch)), SHARED_DSQ, cpu), cpu, cpu);
               t.dsqs == u.dsqs && t.local == u.local
  {
    var first := FirstBatch(cfg, s);
    var s0 := FlagCleared(cfg, s);
    DrainFrame(s, s0);
    DrainIsLossless(s0, first);
    DrainKeepsQueues(s0, first);
    batch := Drain(s0, first).1;
    DrainFrame(Drain(s0, first).0, DispatchStep(cfg, s, cpu));
  }

  /** The ring, the history and the dispatch counters are the same. */
  ghost predicate SameDrain(s: State, t: State) {
    && t.dispatched == s.dispatched && t.h.submitted == s.h.submitted && t.h.handled == s.h.handled
    && t.n.nrUser == s.n.nrUser && t.n.nrCancel == s.n.nrCancel && t.n.nrBounce == s.n.nrBounce
  }

  lemma QuietChangeKeepsDrain(s: State, t: State)
    requires QuietChange(s, t)
    ensures SameDrain(s, t)
  {
  }

  lemma QuietStepsKeepDrain(cfg: Config, s: State, e: Event)
    requires Shape(cfg, s) && CanStep(cfg, s, e) && Quiet(e)
    ensures SameDrain(s, Step(cfg, s, e))
  {
    QuietStepsChangeLittle(cfg, s, e);
    QuietChangeKeepsDrain(s, Step(cfg, s, e));
  }

  lemma EnqueueKeepsDrain(cfg: Config, s: State, p: Pid, cpu: nat, full: bool)
    requires |s.dsqs| == DSQ_COUNT && cpu < |s.local| && p in s.tasks
    ensures SameDrain(s, EnqueueStep(cfg, s, p, cpu, full))
  {
  }

  lemma TaskStepsKeepDrain(cfg: Config, s: State, e: Event)
    requires Shape(cfg, s) && CanStep(cfg, s, e)
    requires e.Init? || e.Exit? || e.Die? || e.SetCpumask? || e.UserReceive?
    ensures SameDrain(s, Step(cfg, s, e))
  {
  }

  lemma StepKeepsDrainInv(cfg: Config, s: State, e: Event)
    requires DrainInv(s) && Shape(cfg, s) && CanStep(cfg, s, e)
    ensures DrainInv(Step(cfg, s, e))
  {
    if e.Dispatch? {
      var batch := DispatchDrains(cfg, s, e.cpu);
    } else if e.UserSubmit? {
      var t := Step(cfg, s, e);
      assert t.h.submitted == Messages(t.h.handled) + t.dispatched;
    } else {
      if Quiet(e) {
        QuietStepsKeepDrain(cfg, s, e);
      } else if e.Enqueue? {
        EnqueueKeepsDrain(cfg, s, e.p, e.cpu, e.full);
      } else {
        TaskStepsKeepDrain(cfg, s, e);
      }
      DrainFrame(s, Step(cfg, s, e));
    }
  }

  // Order within the queues

  /** The slots that were not allowed to jump the queue, in order. */
  function Ordinary(q: seq<Slot>): seq<Slot> {
    if q == [] then []
    else Ordinary(q[..|q| - 1]) + if q[|q| - 1].head then [] else [q[|q| - 1]]
  }

  function ForDsq(batch: seq<Slot>, d: nat): seq<Slot> {
    if batch == [] then []
    else ForDsq(batch[..|batch| - 1], d) + if batch[|batch| - 1].dsq == d then [batch[|batch| - 1]] else []
  }

  lemma {:induction false} OrdinaryOfConcat(a: seq<Slot>, b: seq<Slot>)
    ensures Ordinary(a + b) == Ordinary(a) + Ordinary(b)
  {
    if b == [] {
      assert a + b == a;
    } else {
      var front := b[..|b| - 1];
      OrdinaryOfConcat(a, front);
      assert (a + b)[..|a + b| - 1] == a + front;
    }
  }

  lemma FileSlotKeepsOrder(dsqs: seq<seq<Slot>>, x: Slot, d: nat)
    requires |dsqs| == DSQ_COUNT && d < DSQ_COUNT
    ensures Ordinary(FileSlot(dsqs, x)[d]) == Ordinary(dsqs[d]) + if x.dsq == d then Ordinary([x]) else []
  {
    if x.dsq == d {
      OrdinaryOfConcat([x], dsqs[d]);
      OrdinaryOfConcat(dsqs[d], [x]);
      assert Ordinary([x]) == if x.head then [] else [x];
    }
  }

  /** Flushing a batch puts the slots without RL_PREEMPT_CPU behind the ones already in their queues, in the
      order of the batch. */
  lemma {:induction false} FlushKeepsOrder(dsqs: seq<seq<Slot>>, batch: seq<Slot>, d: nat)
    requires |dsqs| == DSQ_COUNT && d < DSQ_COUNT
    ensures Ordinary(Flush(dsqs, batch)[d]) == Ordinary(dsqs[d]) + Ordinary(ForDsq(batch, d))
  {
    if batch == [] {
    } else {
      var front, x := batch[..|batch| - 1], batch[|batch| - 1];
      var here := if x.dsq == d then [x] else [];
      FlushKeepsOrder(dsqs, front, d);
      FileSlotKeepsOrder(Flush(dsqs, front), x, d);
      OrdinaryOfConcat(ForDsq(front, d), here);
      AppendAssociates(Ordinary(dsqs[d]), Ordinary(ForDsq(front, d)), Ordinary(here));
    }
  }

  /** And it adds exactly the slots of the batch. */
  lemma {:induction false} FlushAddsBatch(dsqs: seq<seq<Slot>>, batch: seq<Slot>, d: nat)
    requires |dsqs| == DSQ_COUNT && d < DSQ_COUNT
    ensures multiset(Flush(dsqs, batch)[d]) == multiset(dsqs[d]) + multiset(ForDsq(batch, d))
  {
    if batch == [] {
    } else {
      FlushAddsBatch(dsqs, batch[..|batch| - 1], d);
    }
  }

  /** The slots that jump the queue, the last one first. */
  function Preempting(q: seq<Slot>): seq<Slot> {
    if q == [] then []
    else (if q[|q| - 1].head then [q[|q| - 1]] else []) + Preempting(q[..|q| - 1])
  }

  /** What filing a batch makes of a queue: preempting slots in front, the last one first, and the others behind. */
  lemma {:induction false} FlushFiles(dsqs: seq<seq<Slot>>, batch: seq<Slot>, d: nat)
    requires |dsqs| == DSQ_COUNT && d < DSQ_COUNT
    ensures Flush(dsqs, batch)[d] == Preempting(ForDsq(batch, d)) + dsqs[d] + Ordinary(ForDsq(batch, d))
  {
    if batch == [] {
    } else {
      var front, x := batch[..|batch| - 1], batch[|batch| - 1];
      FlushFiles(dsqs, front, d);
      var mine := ForDsq(front, d);
      if x.dsq != d {
        assert ForDsq(batch, d) == mine;
      } else {
        assert ForDsq(batch, d)[..|mine|] == mine;
        assert [] + Preempting(mine) == Preempting(mine) && Ordinary(mine) + [] == Ordinary(mine);
        if x.head {
          AppendAssociates([x], Preempting(mine), dsqs[d]);
          AppendAssociates([x], Preempting(mine) + dsqs[d], Ordinary(mine));
        } else {
          AppendAssociates(Preempting(mine) + dsqs[d], Ordinary(mine), [x]);
        }
      }
    }
  }

  function RunnablePids(q: seq<Slot>, tasks: map<Pid, Task>, cpu: nat): seq<Pid> {
    if q == [] then []
    else if MayRun(tasks, q[0].pid, cpu) then [q[0].pid] + RunnablePids(q[1..], tasks, cpu)
    else RunnablePids(q[1..], tasks, cpu)
  }

  function NotRunnable(q: seq<Slot>, tasks: map<Pid, Task>, cpu: nat): seq<Slot> {
    if q == [] then []
    else if MayRun(tasks, q[0].pid, cpu) then NotRunnable(q[1..], tasks, cpu)
    else [q[0]] + NotRunnable(q[1..], tasks, cpu)
  }

  lemma {:induction false} NotRunnableMeans(q: seq<Slot>, tasks: map<Pid, Task>, cpu: nat)
    ensures forall x :: x in NotRunnable(q, tasks, cpu) && x.pid in tasks ==> cpu !in tasks[x.pid].mask
    ensures forall p :: p in RunnablePids(q, tasks, cpu) ==> p in tasks && cpu in tasks[p].mask
    ensures |NotRunnable(q, tasks, cpu)| + |RunnablePids(q, tasks, cpu)| == |q|
    ensures RunnablePids(q, tasks, cpu) == [] ==> NotRunnable(q, tasks, cpu) == q
  {
    if q != [] {
      NotRunnableMeans(q[1..], tasks, cpu);
    }
  }

  /** The first n tasks the CPU may run. */
  function FirstRunnables(q: seq<Slot>, tasks: map<Pid, Task>, cpu: nat, n: nat): seq<Pid> {
    var runnable := RunnablePids(q, tasks, cpu);
    runnable[..Min(n, |runnable|)]
  }

  /** All but those, in the order they had: the later tasks it may run, and every task it may not run. */
  predicate LeavesOthers(q: seq<Slot>, tasks: map<Pid, Task>, cpu: nat, n: nat, rest: seq<Slot>) {
    && IsSubsequence(rest, q)
    && FirstRunnables(q, tasks, cpu, n) + RunnablePids(rest, tasks, cpu) == RunnablePids(q, tasks, cpu)
    && NotRunnable(rest, tasks, cpu) == NotRunnable(q, tasks, cpu)
  }

  lemma {:induction false} ConsumptionKeepsOrder(q: seq<Slot>, tasks: map<Pid, Task>, cpu: nat, n: nat)
    ensures IsSubsequence(ConsumeUpTo(q, tasks, cpu, n).0, q)
  {
    if q == [] || n == 0 {
      Reflexive(q);
    } else {
      var m := if MayRun(tasks, q[0].pid, cpu) then n - 1 else n;
      ConsumptionKeepsOrder(q[1..], tasks, cpu, m);
      KeepOrDropFirst(q[0], ConsumeUpTo(q[1..], tasks, cpu, m).0, q[1..]);
      assert q == [q[0]] + q[1..];
    }
  }

  lemma TakeOneMore(p: Pid, runnable: seq<Pid>, left: seq<Pid>, n: nat)
    requires n > 0 && runnable[..Min(n - 1, |runnable|)] + left == runnable
    ensures ([p] + runnable)[..Min(n, |[p] + runnable|)] == [p] + runnable[..Min(n - 1, |runnable|)]
    ensures ([p] + runnable)[..Min(n, |[p] + runnable|)] + left == [p] + runnable
  {
  }

  lemma SkippedStays(x: Slot, rest: seq<Slot>, tasks: map<Pid, Task>, cpu: nat)
    requires !MayRun(tasks, x.pid, cpu)
    ensures RunnablePids([x] + rest, tasks, cpu) == RunnablePids(rest, tasks, cpu)
    ensures NotRunnable([x] + rest, tasks, cpu) == [x] + NotRunnable(rest, tasks, cpu)
  {
    assert ([x] + rest)[1..] == rest;
  }

  /** The bounded consumption loop gives the CPU the first tasks it may run, as many as the bound allows. */
  lemma {:induction false} ConsumptionTakesFirst(q: seq<Slot>, tasks: map<Pid, Task>, cpu: nat, n: nat)
    ensures var (rest, got) := ConsumeUpTo(q, tasks, cpu, n);
            got == FirstRunnables(q, tasks, cpu, n) && LeavesOthers(q, tasks, cpu, n, rest)
  {
    ConsumptionKeepsOrder(q, tasks, cpu, n);
    if q != [] && n > 0 {
      if MayRun(tasks, q[0].pid, cpu) {
        ConsumptionTakesFirst(q[1..], tasks, cpu, n - 1);
        var rest := ConsumeUpTo(q[1..], tasks, cpu, n - 1).0;
        TakeOneMore(q[0].pid, RunnablePids(q[1..], tasks, cpu), RunnablePids(rest, tasks, cpu), n);
      } else {
        ConsumptionTakesFirst(q[1..], tasks, cpu, n);
        SkippedStays(q[0], ConsumeUpTo(q[1..], tasks, cpu, n).0, tasks, cpu);
      }
    }
  }

  /** It takes every task the CPU may run, and leaves the rest in order, if those tasks are within the bound. */
  lemma ConsumptionTakesAllRunnable(q: seq<Slot>, tasks: map<Pid, Task>, cpu: nat, n: nat)
    requires |RunnablePids(q, tasks, cpu)| <= n
    ensures ConsumeUpTo(q, tasks, cpu, n) == (NotRunnable(q, tasks, cpu), RunnablePids(q, tasks, cpu))
  {
    ConsumptionTakesFirst(q, tasks, cpu, n);
    NotRunnableMeans(ConsumeUpTo(q, tasks, cpu, n).0, tasks, cpu);
  }

  /** A CPU has been served from the queues `filed`: first from the shared queue and then from its own, with up
      to 4096 tasks from each; no other queue has changed. */
  ghost predicate Served(s: State, filed: seq<seq<Slot>>, t: State, cpu: nat)
    requires |filed| == DSQ_COUNT && cpu < SHARED_DSQ && cpu < |s.local|
  {
    && |t.dsqs| == DSQ_COUNT
    && (forall d :: 0 <= d < DSQ_COUNT && d != SHARED_DSQ && d != cpu ==> t.dsqs[d] == filed[d])
    && LeavesOthers(filed[SHARED_DSQ], s.tasks, cpu, MAX_ENQUEUED_TASKS, t.dsqs[SHARED_DSQ])
    && LeavesOthers(filed[cpu], s.tasks, cpu, MAX_ENQUEUED_TASKS, t.dsqs[cpu])
    && t.local == s.local[cpu := s.local[cpu] + FirstRunnables(filed[SHARED_DSQ], s.tasks, cpu, MAX_ENQUEUED_TASKS)
                                             + FirstRunnables(filed[cpu], s.tasks, cpu, MAX_ENQUEUED_TASKS)]
    && (forall p :: p in t.local[cpu][|s.local[cpu]|..] ==> p in s.tasks && cpu in s.tasks[p].mask)
    && NothingLeft(s.tasks, filed[SHARED_DSQ], t.dsqs[SHARED_DSQ], cpu)
    && NothingLeft(s.tasks, filed[cpu], t.dsqs[cpu], cpu)
  }

  /** A queue with at most 4096 tasks for this CPU keeps none that it may run. */
  ghost predicate NothingLeft(tasks: map<Pid, Task>, before: seq<Slot>, after: seq<Slot>, cpu: nat) {
    |RunnablePids(before, tasks, cpu)| <= MAX_ENQUEUED_TASKS ==>
      forall x :: x in after && x.pid in tasks ==> cpu !in tasks[x.pid].mask
  }

  lemma LeftoversMayNotRun(q: seq<Slot>, tasks: map<Pid, Task>, cpu: nat)
    ensures NothingLeft(tasks, q, ConsumeUpTo(q, tasks, cpu, MAX_ENQUEUED_TASKS).0, cpu)
  {
    if |RunnablePids(q, tasks, cpu)| <= MAX_ENQUEUED_TASKS {
      ConsumptionTakesAllRunnable(q, tasks, cpu, MAX_ENQUEUED_TASKS);
      NotRunnableMeans(q, tasks, cpu);
    }
  }

  lemma ConsumptionServes(s: State, filed: seq<seq<Slot>>, cpu: nat)
    requires |filed| == DSQ_COUNT && cpu < SHARED_DSQ && cpu < |s.local|
    ensures Served(s, filed, ConsumeInto(ConsumeInto(s.(dsqs := filed), SHARED_DSQ, cpu), cpu, cpu), cpu)
  {
    ConsumptionTakesFirst(filed[SHARED_DSQ], s.tasks, cpu, MAX_ENQUEUED_TASKS);
    ConsumptionTakesFirst(filed[cpu], s.tasks, cpu, MAX_ENQUEUED_TASKS);
    LeftoversMayNotRun(filed[SHARED_DSQ], s.tasks, cpu);
    LeftoversMayNotRun(filed[cpu], s.tasks, cpu);
    NotRunnableMeans(filed[SHARED_DSQ], s.tasks, cpu);
    NotRunnableMeans(filed[cpu], s.tasks, cpu);
  }

  /** One dispatch, from the messages to the CPU: the batch, which is the scheduler (if needed) and then
      what the handled messages left, is filed behind the waiting tasks, except for preempting ones; and the
      CPU is served from the queues. */
  lemma DispatchServesItsCpu(cfg: Config, s: State, cpu: nat) returns (batch: seq<Slot>)
    requires DrainInv(s) && Shape(cfg, s) && cpu < cfg.nrCpus
    ensures FirstBatch(cfg, s) <= batch && |batch| <= MAX_DISPATCH_SLOT
    ensures SlotsOfAll(DispatchStep(cfg, s, cpu).h.handled)
         == SlotsOfAll(s.h.handled) + batch[|FirstBatch(cfg, s)|..]
    ensures forall d :: 0 <= d < DSQ_COUNT ==>
              && Ordinary(Flush(s.dsqs, batch)[d]) == Ordinary(s.dsqs[d]) + Ordinary(ForDsq(batch, d))
              && multiset(Flush(s.dsqs, batch)[d]) == multiset(s.dsqs[d]) + multiset(ForDsq(batch, d))
              && Flush(s.dsqs, batch)[d] == Preempting(ForDsq(batch, d)) + s.dsqs[d] + Ordinary(ForDsq(batch, d))
    ensures Served(s, Flush(s.dsqs, batch), DispatchStep(cfg, s, cpu), cpu)
  {
    batch := DispatchDrains(cfg, s, cpu);
    var filed := Flush(s.dsqs, batch);
    forall d | 0 <= d < DSQ_COUNT
      ensures Ordinary(filed[d]) == Ordinary(s.dsqs[d]) + Ordinary(ForDsq(batch, d))
      ensures multiset(filed[d]) == multiset(s.dsqs[d]) + multiset(ForDsq(batch, d))
      ensures filed[d] == Preempting(ForDsq(batch, d)) + s.dsqs[d] + Ordinary(ForDsq(batch, d))
    {
      FlushKeepsOrder(s.dsqs, batch, d);
      FlushFiles(s.dsqs, batch, d);
      FlushAddsBatch(s.dsqs, batch, d);
    }
    ConsumptionServes(s, filed, cpu);
    ServedFrame(s, filed, ConsumeInto(ConsumeInto(s.(dsqs := filed), SHARED_DSQ, cpu), cpu, cpu),
                DispatchStep(cfg, s, cpu), cpu);
  }

  lemma ServedFrame(s: State, filed: seq<seq<Slot>>, t: State, u: State, cpu: nat)
    requires |filed| == DSQ_COUNT && cpu < SHARED_DSQ && cpu < |s.local|
    requires Served(s, filed, t, cpu) && u.dsqs == t.dsqs && u.local == t.local
    ensures Served(s, filed, u, cpu)
  {
  }
}
