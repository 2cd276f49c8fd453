/** No task is lost or made up between the callbacks of the backend: what enqueue does with a task, and the balance of
    all queues over whole runs. */
module RustlandConservation {
  import opened Words
  import opened Rustland
  import opened RustlandProtocol
  import opened RustlandRuns
  import opened RustlandHistory

  // Enqueue

  /** Where an enqueued task is kept. */
  datatype Keeper = LocalQueue | CpuQueue | SharedQueue | Ring

  ghost predicate OnlyCpuKthread(t: Task) {
    t.kthread && exists c :: t.mask == {c}
  }

  /** A per-CPU kernel thread stays on its CPU; in FIFO mode, without full_user, so does every task; any other is sent
      to user space, or waits in the shared queue if the ring is full. */
  ghost function KeeperOf(cfg: Config, s: State, p: Pid, full: bool): Keeper
    requires p in s.tasks
  {
    if OnlyCpuKthread(s.tasks[p]) then LocalQueue
    else if s.fifo && !cfg.fullUser then CpuQueue
    else if full then SharedQueue
    else Ring
  }

  /** That keeper, and no other, holds the task once more. */
  ghost predicate KeptOnce(s: State, t: State, p: Pid, cpu: nat, k: Keeper)
    requires |s.dsqs| == |t.dsqs| == DSQ_COUNT && |s.local| == |t.local| && p in s.tasks
  {
    && (forall c :: 0 <= c < |s.local| ==>
          t.local[c] == s.local[c] + if k.LocalQueue? && c == cpu then [p] else [])
    && (forall d :: 0 <= d < DSQ_COUNT ==>
          t.dsqs[d] == s.dsqs[d] + if (k.CpuQueue? && d == cpu) || (k.SharedQueue? && d == SHARED_DSQ)
                                   then [Slot(p, d, false)] else [])
    && t.queued == s.queued + (if k.Ring? then [QMsg(p, cpu, s.tasks[p].cnt, false, |s.h.maskLog|)] else [])
    && t.n.nrKernel == s.n.nrKernel + (if k.Ring? then 0 else 1)
    && t.n.nrQueued == s.n.nrQueued + (if k.Ring? then 1 else 0)
    && t.n.nrCongested == s.n.nrCongested + (if k.SharedQueue? then 1 else 0)
  }

  lemma SingletonMask(mask: set<nat>)
    ensures |mask| == 1 <==> exists c :: mask == {c}
  {
    if |mask| == 1 {
      var c :| c in mask;
      assert |mask - {c}| == 0;
      assert mask == {c};
    }
  }

  lemma EnqueueKeepsOnce(cfg: Config, s: State, p: Pid, cpu: nat, full: bool)
    requires |s.dsqs| == DSQ_COUNT && cpu < |s.local| && cpu < MAX_CPUS && p in s.tasks && p != cfg.userPid
    ensures KeptOnce(s, EnqueueStep(cfg, s, p, cpu, full), p, cpu, KeeperOf(cfg, s, p, full))
  {
    SingletonMask(s.tasks[p].mask);
  }

  /** Enqueue keeps every task but the user-space scheduler, which the next dispatch puts into its batch. */
  lemma EnqueueKeepsTheTask(cfg: Config, s: State, p: Pid, cpu: nat, full: bool)
    requires Shape(cfg, s) && CanStep(cfg, s, Enqueue(p, cpu, full))
    ensures var t := Step(cfg, s, Enqueue(p, cpu, full));
            && |t.dsqs| == DSQ_COUNT && |t.local| == |s.local|
            && if p == cfg.userPid then t == s else KeptOnce(s, t, p, cpu, KeeperOf(cfg, s, p, full))
  {
    if p != cfg.userPid {
      EnqueueKeepsOnce(cfg, s, p, cpu, full);
    }
  }

  // Counting tasks in queues

  function CountPid(q: seq<Slot>, p: Pid): nat {
    if q == [] then 0 else CountPid(q[..|q| - 1], p) + if q[|q| - 1].pid == p then 1 else 0
  }

  function InQueues(dsqs: seq<seq<Slot>>, p: Pid): nat {
    if dsqs == [] then 0 else InQueues(dsqs[..|dsqs| - 1], p) + CountPid(dsqs[|dsqs| - 1], p)
  }

  function InLocals(local: seq<seq<Pid>>, p: Pid): nat {
    if local == [] then 0 else InLocals(local[..|local| - 1], p) + multiset(local[|local| - 1])[p]
  }

  lemma {:induction false} CountOfConcat(a: seq<Slot>, b: seq<Slot>, p: Pid)
    ensures CountPid(a + b, p) == CountPid(a, p) + CountPid(b, p)
  {
    if b == [] {
      assert a + b == a;
    } else {
      CountOfConcat(a, b[..|b| - 1], p);
      assert (a + b)[..|a + b| - 1] == a + b[..|b| - 1];
    }
  }

  lemma {:induction false} QueuesUpdated(dsqs: seq<seq<Slot>>, d: nat, q: seq<Slot>, p: Pid)
    requires d < |dsqs|
    ensures InQueues(dsqs[d := q], p) == InQueues(dsqs, p) - CountPid(dsqs[d], p) + CountPid(q, p)
  {
    var n := |dsqs| - 1;
    if d < n {
      QueuesUpdated(dsqs[..n], d, q, p);
      assert dsqs[d := q][..n] == dsqs[..n][d := q];
    } else {
      assert dsqs[d := q][..n] == dsqs[..n];
    }
  }

  lemma {:induction false} LocalsUpdated(local: seq<seq<Pid>>, c: nat, q: seq<Pid>, p: Pid)
    requires c < |local|
    ensures InLocals(local[c := q], p) == InLocals(local, p) - multiset(local[c])[p] + multiset(q)[p]
  {
    var n := |local| - 1;
    if c < n {
      LocalsUpdated(local[..n], c, q, p);
      assert local[c := q][..n] == local[..n][c := q];
    } else {
      assert local[c := q][..n] == local[..n];
    }
  }

  /** The times a task is in some queue. */
  function Held(s: State, p: Pid): nat {
    InQueues(s.dsqs, p) + InLocals(s.local, p)
  }

  function One(p: Pid, q: Pid): nat {
    if p == q then 1 else 0
  }

  // Dispatch

  lemma FilingAdds(dsqs: seq<seq<Slot>>, x: Slot, p: Pid)
    requires |dsqs| == DSQ_COUNT && x.dsq < DSQ_COUNT
    ensures InQueues(FileSlot(dsqs, x), p) == InQueues(dsqs, p) + One(x.pid, p)
  {
    var q := dsqs[x.dsq];
    CountOfConcat([x], q, p);
    CountOfConcat(q, [x], p);
    assert CountPid([x], p) == CountPid([], p) + One(x.pid, p);
    QueuesUpdated(dsqs, x.dsq, if x.head then [x] + q else q + [x], p);
  }

  lemma {:induction false} FlushAdds(dsqs: seq<seq<Slot>>, batch: seq<Slot>, p: Pid)
    requires |dsqs| == DSQ_COUNT && forall x :: x in batch ==> x.dsq < DSQ_COUNT
    ensures InQueues(Flush(dsqs, batch), p) == InQueues(dsqs, p) + CountPid(batch, p)
  {
    if batch == [] {
    } else {
      assert batch[|batch| - 1] in batch;
      FlushAdds(dsqs, batch[..|batch| - 1], p);
      FilingAdds(Flush(dsqs, batch[..|batch| - 1]), batch[|batch| - 1], p);
    }
  }

  lemma CountFromFront(q: seq<Slot>, p: Pid)
    requires q != []
    ensures CountPid(q, p) == One(q[0].pid, p) + CountPid(q[1..], p)
  {
    assert q == [q[0]] + q[1..];
    CountOfConcat([q[0]], q[1..], p);
    assert CountPid([q[0]], p) == CountPid([], p) + One(q[0].pid, p);
  }

  lemma {:induction false} ConsumptionMoves(q: seq<Slot>, tasks: map<Pid, Task>, cpu: nat, n: nat, p: Pid)
    ensures var (rest, got) := ConsumeUpTo(q, tasks, cpu, n);
            CountPid(rest, p) + multiset(got)[p] == CountPid(q, p)
  {
    if q != [] && n > 0 {
      CountFromFront(q, p);
      if MayRun(tasks, q[0].pid, cpu) {
        ConsumptionMoves(q[1..], tasks, cpu, n - 1, p);
      } else {
        ConsumptionMoves(q[1..], tasks, cpu, n, p);
        var rest := ConsumeUpTo(q[1..], tasks, cpu, n).0;
        CountFromFront([q[0]] + rest, p);
        assert ([q[0]] + rest)[1..] == rest;
      }
    }
  }

  /** Consumption moves tasks from a queue to the CPU. */
  lemma ConsumeIntoKeeps(s: State, d: nat, cpu: nat, p: Pid)
    requires d < |s.dsqs| && cpu < |s.local|
    ensures Held(ConsumeInto(s, d, cpu), p) == Held(s, p)
  {
    var (rest, got) := ConsumeUpTo(s.dsqs[d], s.tasks, cpu, MAX_ENQUEUED_TASKS);
    ConsumptionMoves(s.dsqs[d], s.tasks, cpu, MAX_ENQUEUED_TASKS, p);
    QueuesUpdated(s.dsqs, d, rest, p);
    LocalsUpdated(s.local, cpu, s.local[cpu] + got, p);
  }

  lemma {:induction false} SlotsAreInRange(log: seq<Pid>, handled: seq<Handled>)
    requires forall r :: r in handled ==> RightVerdict(log, r)
    ensures forall x :: x in SlotsOfAll(handled) ==> x.dsq < DSQ_COUNT
  {
    if handled != [] {
      var last := handled[|handled| - 1];
      assert last in handled;
      SlotsAreInRange(log, handled[..|handled| - 1]);
    }
  }

  /** A batch is filed, and the CPU is served from the shared queue and its own. */
  function FiledAndServed(s: State, batch: seq<Slot>, cpu: nat): State
    requires |s.dsqs| == DSQ_COUNT && cpu < |s.local| && cpu < MAX_CPUS
  {
    ConsumeInto(ConsumeInto(s.(dsqs := Flush(s.dsqs, batch)), SHARED_DSQ, cpu), cpu, cpu)
  }

  lemma FilingBalances(s: State, batch: seq<Slot>, cpu: nat, p: Pid)
    requires |s.dsqs| == DSQ_COUNT && cpu < |s.local| && cpu < MAX_CPUS
    requires forall x :: x in batch ==> x.dsq < DSQ_COUNT
    ensures Held(FiledAndServed(s, batch, cpu), p) == Held(s, p) + CountPid(batch, p)
  {
    FlushAdds(s.dsqs, batch, p);
    var filed := s.(dsqs := Flush(s.dsqs, batch));
    ConsumeIntoKeeps(filed, SHARED_DSQ, cpu, p);
    ConsumeIntoKeeps(ConsumeInto(filed, SHARED_DSQ, cpu), cpu, cpu, p);
  }

  lemma BatchIsInRange(s: State, t: State, first: seq<Slot>, batch: seq<Slot>)
    requires first <= batch && forall x :: x in first ==> x.dsq < DSQ_COUNT
    requires SlotsOfAll(t.h.handled) == SlotsOfAll(s.h.handled) + batch[|first|..]
    requires forall x :: x in SlotsOfAll(t.h.handled) ==> x.dsq < DSQ_COUNT
    ensures forall x :: x in batch ==> x.dsq < DSQ_COUNT
  {
    assert batch == first + batch[|first|..];
  }

  lemma BatchCounts(before: seq<Slot>, after: seq<Slot>, first: seq<Slot>, batch: seq<Slot>, p: Pid)
    requires first <= batch && after == before + batch[|first|..]
    ensures CountPid(batch, p) + CountPid(before, p) == CountPid(after, p) + CountPid(first, p)
  {
    assert batch == first + batch[|first|..];
    CountOfConcat(first, batch[|first|..], p);
    CountOfConcat(before, batch[|first|..], p);
  }

  lemma DispatchFilesAndServes(cfg: Config, s: State, cpu: nat) returns (batch: seq<Slot>)
    requires Inv(cfg, s) && cpu < cfg.nrCpus
    ensures forall x :: x in batch ==> x.dsq < DSQ_COUNT
    ensures FirstBatch(cfg, s) <= batch
    ensures SlotsOfAll(DispatchStep(cfg, s, cpu).h.handled)
         == SlotsOfAll(s.h.handled) + batch[|FirstBatch(cfg, s)|..]
    ensures DispatchStep(cfg, s, cpu).dsqs == FiledAndServed(s, batch, cpu).dsqs
    ensures DispatchStep(cfg, s, cpu).local == FiledAndServed(s, batch, cpu).local
  {
    var t := DispatchStep(cfg, s, cpu);
    batch := DispatchDrains(cfg, s, cpu);
    DispatchKeepsGeneration(cfg, s, cpu);
    SlotsAreInRange(t.h.maskLog, t.h.handled);
    BatchIsInRange(s, t, FirstBatch(cfg, s), batch);
  }

  /** A dispatch adds to the queues what the messages it handles leave, and the scheduler if it is due. */
  lemma DispatchBalances(cfg: Config, s: State, cpu: nat, p: Pid)
    requires Inv(cfg, s) && cpu < cfg.nrCpus
    ensures Held(DispatchStep(cfg, s, cpu), p) + CountPid(SlotsOfAll(s.h.handled), p)
         == Held(s, p) + CountPid(SlotsOfAll(DispatchStep(cfg, s, cpu).h.handled), p)
            + CountPid(FirstBatch(cfg, s), p)
  {
    var batch := DispatchFilesAndServes(cfg, s, cpu);
    FilingBalances(s, batch, cpu, p);
    BatchCounts(SlotsOfAll(s.h.handled), SlotsOfAll(DispatchStep(cfg, s, cpu).h.handled), FirstBatch(cfg, s), batch, p);
    SameQueuesHeld(DispatchStep(cfg, s, cpu), FiledAndServed(s, batch, cpu), p);
  }

  lemma SameQueuesHeld(s: State, t: State, p: Pid)
    requires s.dsqs == t.dsqs && s.local == t.local
    ensures Held(s, p) == Held(t, p)
  {
  }

  // The other events

  lemma {:induction false} WithoutPidCounts(q: seq<Slot>, p: Pid, r: Pid)
    ensures CountPid(WithoutPid(q, p), r) == if r == p then 0 else CountPid(q, r)
  {
    if q != [] {
      WithoutPidCounts(q[1..], p, r);
      CountFromFront(q, r);
      if q[0].pid != p {
        CountFromFront([q[0]] + WithoutPid(q[1..], p), r);
        assert ([q[0]] + WithoutPid(q[1..], p))[1..] == WithoutPid(q[1..], p);
      } else {
        assert [] + WithoutPid(q[1..], p) == WithoutPid(q[1..], p);
      }
    }
  }

  lemma {:induction false} QueuesWithoutPid(dsqs: seq<seq<Slot>>, after: seq<seq<Slot>>, p: Pid, r: Pid)
    requires |after| == |dsqs| && forall d :: 0 <= d < |dsqs| ==> after[d] == WithoutPid(dsqs[d], p)
    ensures InQueues(after, r) == if r == p then 0 else InQueues(dsqs, r)
  {
    if dsqs != [] {
      var n := |dsqs| - 1;
      QueuesWithoutPid(dsqs[..n], after[..n], p, r);
      WithoutPidCounts(dsqs[n], p, r);
    }
  }

  /** An enqueued task that is not sent to user space. */
  predicate KeptByKernel(cfg: Config, s: State, e: Event) {
    e.Enqueue? && e.p != cfg.userPid && !Sends(cfg, s, e)
  }

  lemma LocalDispatchAdds(s: State, p: Pid, cpu: nat, r: Pid)
    requires cpu < |s.local|
    ensures Held(LocalDispatch(s, p, cpu), r) == Held(s, r) + One(p, r)
  {
    LocalsUpdated(s.local, cpu, s.local[cpu] + [p], r);
  }

  lemma KernelDispatchAdds(s: State, x: Slot, r: Pid)
    requires |s.dsqs| == DSQ_COUNT && x.dsq < DSQ_COUNT
    ensures Held(KernelDispatch(s, x), r) == Held(s, r) + One(x.pid, r)
  {
    FilingAdds(s.dsqs, x, r);
  }

  lemma SendingBalances(s: State, q: QMsg, full: bool, r: Pid)
    requires |s.dsqs| == DSQ_COUNT
    ensures var sent := Send(s, q, full);
            Held(sent, r) == Held(s, r) && |sent.dsqs| == DSQ_COUNT
            && (full ==> Held(KernelDispatch(sent, Slot(q.pid, SHARED_DSQ, false)), r) == Held(s, r) + One(q.pid, r))
  {
    var sent := Send(s, q, full);
    SameQueuesHeld(s, sent, r);
    KernelDispatchAdds(sent, Slot(q.pid, SHARED_DSQ, false), r);
  }

  lemma EnqueueBalances(cfg: Config, s: State, p: Pid, cpu: nat, full: bool, r: Pid)
    requires |s.dsqs| == DSQ_COUNT && cpu < |s.local| && cpu < MAX_CPUS && p in s.tasks
    ensures Held(EnqueueStep(cfg, s, p, cpu, full), r)
         == Held(s, r) + if KeptByKernel(cfg, s, Enqueue(p, cpu, full)) then One(p, r) else 0
  {
    if p == cfg.userPid {
    } else if s.tasks[p].kthread && |s.tasks[p].mask| == 1 {
      LocalDispatchAdds(s, p, cpu, r);
    } else if !cfg.fullUser && s.fifo {
      KernelDispatchAdds(s, Slot(p, cpu, false), r);
    } else {
      SendingBalances(s, QMsg(p, cpu, s.tasks[p].cnt, false, |s.h.maskLog|), full, r);
    }
  }

  lemma QuietStepsKeepQueues(cfg: Config, s: State, e: Event)
    requires Shape(cfg, s) && CanStep(cfg, s, e) && Quiet(e) && !e.Dequeue?
    ensures Step(cfg, s, e).dsqs == s.dsqs && Step(cfg, s, e).local == s.local
  {
    QuietStepsChangeLittle(cfg, s, e);
  }

  lemma OthersKeepQueues(cfg: Config, s: State, e: Event)
    requires Shape(cfg, s) && CanStep(cfg, s, e) && !e.Dispatch? && !e.Enqueue? && !e.Dequeue?
    ensures Step(cfg, s, e).dsqs == s.dsqs && Step(cfg, s, e).local == s.local
  {
    if Quiet(e) {
      QuietStepsKeepQueues(cfg, s, e);
    }
  }

  lemma OthersBalance(cfg: Config, s: State, e: Event, p: Pid)
    requires Shape(cfg, s) && CanStep(cfg, s, e) && !e.Dispatch? && !e.Enqueue? && !e.Dequeue?
    ensures Held(Step(cfg, s, e), p) == Held(s, p)
  {
    OthersKeepQueues(cfg, s, e);
    SameQueuesHeld(s, Step(cfg, s, e), p);
  }

  // Runs

  /** What an event adds to the queues for a task, on the kernel's side. */
  function Arrivals(cfg: Config, s: State, e: Event, p: Pid): nat {
    if KeptByKernel(cfg, s, e) then One(e.p, p)
    else if e.Dispatch? && s.needed && cfg.userPid in s.tasks then One(cfg.userPid, p)
    else 0
  }

  ghost function Arrived(cfg: Config, s: State, es: seq<Event>, p: Pid): nat
    requires Shape(cfg, s) && IsRun(cfg, s, es)
  {
    if es == [] then 0
    else Arrived(cfg, s, es[..|es| - 1], p) + Arrivals(cfg, After(cfg, s, es[..|es| - 1]), es[|es| - 1], p)
  }

  /** What the kernel has taken back out of the dispatch queues. */
  ghost function TakenBack(cfg: Config, s: State, es: seq<Event>, p: Pid): nat
    requires Shape(cfg, s) && IsRun(cfg, s, es)
  {
    if es == [] then 0
    else TakenBack(cfg, s, es[..|es| - 1], p) + TakenIn(After(cfg, s, es[..|es| - 1]), es[|es| - 1], p)
  }

  function TakenIn(s: State, e: Event, p: Pid): nat {
    if e.Dequeue? && e.p == p then InQueues(s.dsqs, p) else 0
  }

  ghost predicate Balanced(cfg: Config, s: State, e: Event, t: State, p: Pid) {
    Held(t, p) + TakenIn(s, e, p) + CountPid(SlotsOfAll(s.h.handled), p)
    == Held(s, p) + Arrivals(cfg, s, e, p) + CountPid(SlotsOfAll(t.h.handled), p)
  }

  lemma SchedulerCounts(cfg: Config, s: State, cpu: nat, p: Pid)
    ensures CountPid(FirstBatch(cfg, s), p) == Arrivals(cfg, s, Dispatch(cpu), p)
  {
    assert [Slot(cfg.userPid, SHARED_DSQ, false)][..0] == [];
  }

  lemma DequeueBalances(cfg: Config, s: State, q: Pid, p: Pid)
    requires Shape(cfg, s)
    ensures Balanced(cfg, s, Event.Dequeue(q), Step(cfg, s, Event.Dequeue(q)), p)
  {
    QueuesWithoutPid(s.dsqs, Step(cfg, s, Event.Dequeue(q)).dsqs, q, p);
  }

  lemma StepBalances(cfg: Config, s: State, e: Event, p: Pid)
    requires Inv(cfg, s) && CanStep(cfg, s, e)
    ensures Balanced(cfg, s, e, Step(cfg, s, e), p)
  {
    if !e.Dispatch? {
      OthersHandleNothing(cfg, s, e);
    }
    match e
    case Dispatch(cpu) =>
      DispatchBalances(cfg, s, cpu, p);
      SchedulerCounts(cfg, s, cpu, p);
    case Enqueue(q, cpu, full) => EnqueueBalances(cfg, s, q, cpu, full, p);
    case Dequeue(q) => DequeueBalances(cfg, s, q, p);
    case _ => OthersBalance(cfg, s, e, p);
  }

  lemma {:induction false} NothingInEmptyQueues(dsqs: seq<seq<Slot>>, local: seq<seq<Pid>>, p: Pid)
    requires forall d :: 0 <= d < |dsqs| ==> dsqs[d] == []
    requires forall c :: 0 <= c < |local| ==> local[c] == []
    ensures InQueues(dsqs, p) == 0 && InLocals(local, p) == 0
    decreases |dsqs| + |local|
  {
    if dsqs != [] {
      NothingInEmptyQueues(dsqs[..|dsqs| - 1], local, p);
    } else if local != [] {
      NothingInEmptyQueues(dsqs, local[..|local| - 1], p);
    }
  }

  /** In every run each task is in the queues as often as enqueue has kept it there, dispatch has put the scheduler
      there and handled messages have put it there, less what the kernel has taken back. */
  lemma {:induction false} QueuesAreBalanced(cfg: Config, s: State, es: seq<Event>, p: Pid)
    requires Initial(cfg, s) && IsRun(cfg, s, es)
    ensures var t := After(cfg, s, es);
            Held(t, p) + TakenBack(cfg, s, es, p) == Arrived(cfg, s, es, p) + CountPid(SlotsOfAll(t.h.handled), p)
  {
    if es == [] {
      NothingInEmptyQueues(s.dsqs, s.local, p);
    } else {
      var front := es[..|es| - 1];
      QueuesAreBalanced(cfg, s, front, p);
      InitialInv(cfg, s);
      InvHolds(cfg, s, front);
      StepBalances(cfg, After(cfg, s, front), es[|es| - 1], p);
    }
  }

  // Counters

  predicate MeetsFullRing(cfg: Config, s: State, e: Event) {
    match e
    case Exit(_, full, _) => full
    case Enqueue(p, cpu, full) => full && Sends(cfg, s, Enqueue(p, cpu, false))
    case _ => false
  }

  ghost function KernelDispatches(cfg: Config, s: State, es: seq<Event>): nat
    requires Shape(cfg, s) && IsRun(cfg, s, es)
  {
    if es == [] then 0
    else KernelDispatches(cfg, s, es[..|es| - 1]) +
         if KeptByKernel(cfg, After(cfg, s, es[..|es| - 1]), es[|es| - 1]) then 1 else 0
  }

  ghost function Congestions(cfg: Config, s: State, es: seq<Event>): nat
    requires Shape(cfg, s) && IsRun(cfg, s, es)
  {
    if es == [] then 0
    else Congestions(cfg, s, es[..|es| - 1]) +
         if MeetsFullRing(cfg, After(cfg, s, es[..|es| - 1]), es[|es| - 1]) then 1 else 0
  }

  ghost predicate CountersFollow(cfg: Config, s: State, e: Event, t: State) {
    && t.n.nrKernel == s.n.nrKernel + (if KeptByKernel(cfg, s, e) then 1 else 0)
    && t.n.nrCongested == s.n.nrCongested + (if MeetsFullRing(cfg, s, e) then 1 else 0)
  }

  lemma EnqueueCountsItself(cfg: Config, s: State, p: Pid, cpu: nat, full: bool)
    requires |s.dsqs| == DSQ_COUNT && cpu < |s.local| && p in s.tasks
    ensures CountersFollow(cfg, s, Enqueue(p, cpu, full), EnqueueStep(cfg, s, p, cpu, full))
  {
  }

  lemma OthersCountNothing(cfg: Config, s: State, e: Event)
    requires Shape(cfg, s) && CanStep(cfg, s, e) && !e.Enqueue? && !e.Dispatch?
    ensures CountersFollow(cfg, s, e, Step(cfg, s, e))
  {
    if Quiet(e) {
      QuietStepsChangeLittle(cfg, s, e);
    }
  }

  lemma CountersAfterStep(cfg: Config, s: State, e: Event)
    requires Shape(cfg, s) && CanStep(cfg, s, e)
    ensures CountersFollow(cfg, s, e, Step(cfg, s, e))
  {
    match e
    case Dispatch(cpu) => DrainKeepsQueues(FlagCleared(cfg, s), FirstBatch(cfg, s));
    case Enqueue(p, cpu, full) => EnqueueCountsItself(cfg, s, p, cpu, full);
    case _ => OthersCountNothing(cfg, s, e);
  }

  /** In every run nr_kernel_dispatches counts the tasks enqueue has kept, and nr_sched_congested the messages that
      found the ring full. */
  lemma {:induction false} KernelCountersAreExact(cfg: Config, s: State, es: seq<Event>)
    requires Initial(cfg, s) && IsRun(cfg, s, es)
    ensures After(cfg, s, es).n.nrKernel == KernelDispatches(cfg, s, es)
    ensures After(cfg, s, es).n.nrCongested == Congestions(cfg, s, es)
  {
    if es == [] {
    } else {
      KernelCountersAreExact(cfg, s, es[..|es| - 1]);
      CountersAfterStep(cfg, After(cfg, s, es[..|es| - 1]), es[|es| - 1]);
    }
  }
}
