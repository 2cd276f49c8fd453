/** Where the tasks in the dispatch queues of the backend come from. */
module RustlandQueues {
  import opened Words
  import opened Subsequences
  import opened Rustland
  import opened RustlandProtocol
  import opened RustlandRuns

  /** What may be in a queue: slots that handled messages left, the user-space scheduler and, once the ring to
      user space has overflowed, tasks enqueue put on the shared queue itself. */
  ghost function Sources(cfg: Config, s: State): iset<Slot> {
    iset x: Slot |
      || x in SlotsOfAll(s.h.handled)
      || x == Slot(cfg.userPid, SHARED_DSQ, false)
      || (s.n.nrCongested > 0 && x.dsq == SHARED_DSQ)
  }

  /** Every slot is in its own queue and in the given set. */
  ghost predicate AllFrom(dsqs: seq<seq<Slot>>, ok: iset<Slot>) {
    forall d :: 0 <= d < |dsqs| ==> OneFrom(dsqs[d], d, ok)
  }

  ghost predicate OneFrom(q: seq<Slot>, d: nat, ok: iset<Slot>) {
    forall x :: x in q ==> x.dsq == d && x in ok
  }

  lemma {:induction false} FlushKeepsSources(dsqs: seq<seq<Slot>>, batch: seq<Slot>, ok: iset<Slot>)
    requires |dsqs| == DSQ_COUNT && AllFrom(dsqs, ok) && forall x :: x in batch ==> x in ok
    ensures AllFrom(Flush(dsqs, batch), ok)
  {
    if batch != [] {
      assert batch[|batch| - 1] in batch;
      FlushKeepsSources(dsqs, batch[..|batch| - 1], ok);
    }
  }

  lemma {:induction false} ConsumptionKeepsSources(q: seq<Slot>, tasks: map<Pid, Task>, cpu: nat, n: nat,
                                                   d: nat, ok: iset<Slot>)
    requires OneFrom(q, d, ok)
    ensures OneFrom(ConsumeUpTo(q, tasks, cpu, n).0, d, ok)
  {
    if q != [] && n > 0 {
      assert q[0] in q;
      ConsumptionKeepsSources(q[1..], tasks, cpu, if MayRun(tasks, q[0].pid, cpu) then n - 1 else n, d, ok);
    }
  }

  lemma ConsumeIntoKeepsSources(s: State, d: nat, cpu: nat, ok: iset<Slot>)
    requires d < |s.dsqs| && cpu < |s.local| && AllFrom(s.dsqs, ok)
    ensures AllFrom(ConsumeInto(s, d, cpu).dsqs, ok)
  {
    ConsumptionKeepsSources(s.dsqs[d], s.tasks, cpu, MAX_ENQUEUED_TASKS, d, ok);
  }

  lemma {:induction false} WithoutPidKeepsSources(q: seq<Slot>, p: Pid, d: nat, ok: iset<Slot>)
    requires OneFrom(q, d, ok)
    ensures OneFrom(WithoutPid(q, p), d, ok)
  {
    if q != [] {
      assert q[0] in q;
      WithoutPidKeepsSources(q[1..], p, d, ok);
    }
  }

  lemma MoreSources(dsqs: seq<seq<Slot>>, ok: iset<Slot>, more: iset<Slot>)
    requires AllFrom(dsqs, ok) && ok <= more
    ensures AllFrom(dsqs, more)
  {
  }

  /** The new state has at least the old sources. */
  lemma SourcesGrow(cfg: Config, s: State, t: State)
    requires SlotsOfAll(s.h.handled) <= SlotsOfAll(t.h.handled) && s.n.nrCongested <= t.n.nrCongested
    ensures Sources(cfg, s) <= Sources(cfg, t)
  {
    assert forall x :: x in SlotsOfAll(s.h.handled) ==> x in SlotsOfAll(t.h.handled);
  }

  /** A batch that is the scheduler, if needed, and then what messages left, has nothing but sources. */
  lemma BatchIsSourced(cfg: Config, s: State, t: State, batch: seq<Slot>)
    requires FirstBatch(cfg, s) <= batch
    requires SlotsOfAll(t.h.handled) == SlotsOfAll(s.h.handled) + batch[|FirstBatch(cfg, s)|..]
    ensures forall x :: x in batch ==> x in Sources(cfg, t)
    ensures SlotsOfAll(s.h.handled) <= SlotsOfAll(t.h.handled)
  {
    var first := FirstBatch(cfg, s);
    forall x | x in batch ensures x in Sources(cfg, t) {
      var i :| 0 <= i < |batch| && batch[i] == x;
      if i < |first| {
        assert first[i] == x;
      } else {
        assert batch[|first|..][i - |first|] == x;
      }
    }
  }

  lemma DispatchKeepsCongestion(cfg: Config, s: State, cpu: nat)
    requires Shape(cfg, s) && cpu < cfg.nrCpus
    ensures DispatchStep(cfg, s, cpu).n.nrCongested == s.n.nrCongested
  {
    DrainKeepsQueues(FlagCleared(cfg, s), FirstBatch(cfg, s));
  }

  lemma DispatchKeepsSources(cfg: Config, s: State, cpu: nat)
    requires Shape(cfg, s) && cpu < cfg.nrCpus && DrainInv(s) && AllFrom(s.dsqs, Sources(cfg, s))
    ensures AllFrom(DispatchStep(cfg, s, cpu).dsqs, Sources(cfg, DispatchStep(cfg, s, cpu)))
  {
    var t := DispatchStep(cfg, s, cpu);
    var batch := DispatchDrains(cfg, s, cpu);
    BatchIsSourced(cfg, s, t, batch);
    DispatchKeepsCongestion(cfg, s, cpu);
    SourcesGrow(cfg, s, t);
    var ok := Sources(cfg, t);
    MoreSources(s.dsqs, Sources(cfg, s), ok);
    FlushKeepsSources(s.dsqs, batch, ok);
    var s2 := s.(dsqs := Flush(s.dsqs, batch));
    ConsumeIntoKeepsSources(s2, SHARED_DSQ, cpu, ok);
    ConsumeIntoKeepsSources(ConsumeInto(s2, SHARED_DSQ, cpu), cpu, cpu, ok);
  }

  lemma EnqueueKeepsSources(cfg: Config, s: State, p: Pid, cpu: nat, full: bool)
    requires |s.dsqs| == DSQ_COUNT && cpu < |s.local| && p in s.tasks && (cfg.fullUser || !s.fifo)
    requires AllFrom(s.dsqs, Sources(cfg, s))
    ensures AllFrom(EnqueueStep(cfg, s, p, cpu, full).dsqs, Sources(cfg, EnqueueStep(cfg, s, p, cpu, full)))
  {
    var t := EnqueueStep(cfg, s, p, cpu, full);
    SourcesGrow(cfg, s, t);
    MoreSources(s.dsqs, Sources(cfg, s), Sources(cfg, t));
  }

  lemma DequeueKeepsSources(cfg: Config, s: State, p: Pid)
    requires Shape(cfg, s) && AllFrom(s.dsqs, Sources(cfg, s))
    ensures AllFrom(Step(cfg, s, Event.Dequeue(p)).dsqs, Sources(cfg, Step(cfg, s, Event.Dequeue(p))))
  {
    forall d | 0 <= d < DSQ_COUNT
      ensures OneFrom(WithoutPid(s.dsqs[d], p), d, Sources(cfg, s))
    {
      WithoutPidKeepsSources(s.dsqs[d], p, d, Sources(cfg, s));
    }
    SourcesGrow(cfg, s, Step(cfg, s, Event.Dequeue(p)));
  }

  /** The queues and what was handled are the same, and congestion has not gone down. */
  ghost predicate SameQueues(s: State, t: State) {
    t.dsqs == s.dsqs && t.h.handled == s.h.handled && s.n.nrCongested <= t.n.nrCongested
  }

  lemma QuietChangeKeepsQueues(s: State, t: State)
    requires QuietChange(s, t) && t.dsqs == s.dsqs
    ensures SameQueues(s, t)
  {
  }

  lemma QuietStepsKeepQueues(cfg: Config, s: State, e: Event)
    requires Shape(cfg, s) && CanStep(cfg, s, e) && Quiet(e) && !e.Dequeue?
    ensures SameQueues(s, Step(cfg, s, e))
  {
    QuietStepsChangeLittle(cfg, s, e);
    QuietChangeKeepsQueues(s, Step(cfg, s, e));
  }

  lemma TaskStepsKeepQueues(cfg: Config, s: State, e: Event)
    requires Shape(cfg, s) && CanStep(cfg, s, e) && !e.Dispatch? && !e.Enqueue? && !Quiet(e)
    ensures SameQueues(s, Step(cfg, s, e))
  {
  }

  lemma StepKeepsSources(cfg: Config, s: State, e: Event)
    requires Shape(cfg, s) && CanStep(cfg, s, e) && DrainInv(s) && (cfg.fullUser || !s.fifo)
    requires AllFrom(s.dsqs, Sources(cfg, s))
    ensures AllFrom(Step(cfg, s, e).dsqs, Sources(cfg, Step(cfg, s, e)))
  {
    match e
    case Dispatch(cpu) => DispatchKeepsSources(cfg, s, cpu);
    case Enqueue(p, cpu, full) => EnqueueKeepsSources(cfg, s, p, cpu, full);
    case Dequeue(p) => DequeueKeepsSources(cfg, s, p);
    case _ =>
      if Quiet(e) {
        QuietStepsKeepQueues(cfg, s, e);
      } else {
        TaskStepsKeepQueues(cfg, s, e);
      }
      SourcesGrow(cfg, s, Step(cfg, s, e));
      MoreSources(s.dsqs, Sources(cfg, s), Sources(cfg, Step(cfg, s, e)));
  }

  /** In every run in which FIFO mode cannot arise, every slot of every queue has one of those sources. */
  lemma {:induction false} QueuesAreSourced(cfg: Config, s: State, es: seq<Event>)
    requires Initial(cfg, s) && IsRun(cfg, s, es) && (cfg.fullUser || !cfg.fifoSched)
    ensures AllFrom(After(cfg, s, es).dsqs, Sources(cfg, After(cfg, s, es)))
  {
    if es == [] {
    } else {
      QueuesAreSourced(cfg, s, es[..|es| - 1]);
      InitialInv(cfg, s);
      InvHolds(cfg, s, es[..|es| - 1]);
      StepKeepsSources(cfg, After(cfg, s, es[..|es| - 1]), es[|es| - 1]);
    }
  }

  lemma {:induction false} SlotComesFrom(handled: seq<Handled>, x: Slot) returns (r: Handled)
    requires x in SlotsOfAll(handled)
    ensures r in handled && x in SlotsOf(r.msg, r.outcome)
  {
    var last := handled[|handled| - 1];
    if x in SlotsOf(last.msg, last.outcome) {
      r := last;
    } else {
      r := SlotComesFrom(handled[..|handled| - 1], x);
    }
  }

  /** A message put the task where it is: it was handled as one for that CPU, and when it was, the CPU was in the
      task's mask and no set_cpumask had hit the task since its information was stamped. */
  ghost predicate Placed(log: seq<Pid>, r: Handled, c: nat, p: Pid) {
    && r.msg.pid == p && r.live && r.outcome == OnCpu(c)
    && (!r.msg.exiting ==>
          && r.msg.stamp <= r.at <= |log|
          && c in r.mask && p !in log[r.msg.stamp..r.at])
  }

  lemma CpuSlotsArePlaced(cfg: Config, t: State, c: nat, x: Slot) returns (r: Handled)
    requires GenerationInv(t) && |t.h.maskLog| < TWO64 && c < MAX_CPUS
    requires x.dsq == c && x in Sources(cfg, t)
    ensures r in t.h.handled && Placed(t.h.maskLog, r, c, x.pid)
  {
    r := SlotComesFrom(t.h.handled, x);
    assert RightVerdict(t.h.maskLog, r);
    if !r.msg.exiting {
      VerdictInShortHistory(t.h.maskLog, r);
    }
  }

  /** In every such run the queue of a CPU holds nothing but tasks that messages put there with that right. */
  lemma CpuQueuesHoldRightlyPlaced(cfg: Config, s: State, es: seq<Event>, c: nat, x: Slot) returns (r: Handled)
    requires Initial(cfg, s) && IsRun(cfg, s, es) && (cfg.fullUser || !cfg.fifoSched)
    requires c < MAX_CPUS && x in After(cfg, s, es).dsqs[c] && |After(cfg, s, es).h.maskLog| < TWO64
    ensures r in After(cfg, s, es).h.handled && Placed(After(cfg, s, es).h.maskLog, r, c, x.pid)
  {
    var t := After(cfg, s, es);
    QueuesAreSourced(cfg, s, es);
    assert OneFrom(t.dsqs[c], c, Sources(cfg, t));
    InitialInv(cfg, s);
    InvHolds(cfg, s, es);
    r := CpuSlotsArePlaced(cfg, t, c, x);
  }

  // Order over whole runs

  /** The slots of other tasks than the given ones. */
  function Except(q: seq<Slot>, pids: set<Pid>): seq<Slot> {
    if q == [] then []
    else Except(q[..|q| - 1], pids) + if q[|q| - 1].pid in pids then [] else [q[|q| - 1]]
  }

  lemma {:induction false} ExceptOfConcat(a: seq<Slot>, b: seq<Slot>, pids: set<Pid>)
    ensures Except(a + b, pids) == Except(a, pids) + Except(b, pids)
  {
    if b == [] {
      assert a + b == a;
    } else {
      FrontOfConcat(a, b);
      ExceptOfConcat(a, b[..|b| - 1], pids);
    }
  }

  lemma {:induction false} ExceptNobody(q: seq<Slot>)
    ensures Except(q, {}) == q
  {
    if q != [] {
      ExceptNobody(q[..|q| - 1]);
    }
  }

  lemma {:induction false} ForDsqOfConcat(a: seq<Slot>, b: seq<Slot>, d: nat)
    ensures ForDsq(a + b, d) == ForDsq(a, d) + ForDsq(b, d)
  {
    if b == [] {
      assert a + b == a;
    } else {
      FrontOfConcat(a, b);
      ForDsqOfConcat(a, b[..|b| - 1], d);
    }
  }

  /** What order is kept of: the slots without RL_PREEMPT_CPU of other tasks than the given ones. */
  function Lined(q: seq<Slot>, pids: set<Pid>): seq<Slot> {
    Except(Ordinary(q), pids)
  }

  lemma LinedOfConcat(a: seq<Slot>, b: seq<Slot>, pids: set<Pid>)
    ensures Lined(a + b, pids) == Lined(a, pids) + Lined(b, pids)
  {
    OrdinaryOfConcat(a, b);
    ExceptOfConcat(Ordinary(a), Ordinary(b), pids);
  }

  lemma LinedLast(q: seq<Slot>, pids: set<Pid>)
    requires q != []
    ensures var x := q[|q| - 1];
            Lined(q, pids) == Lined(q[..|q| - 1], pids) + if x.head || x.pid in pids then [] else [x]
  {
    var x := q[|q| - 1];
    assert q == q[..|q| - 1] + [x];
    LinedOfConcat(q[..|q| - 1], [x], pids);
    assert Ordinary([x]) == if x.head then [] else [x];
    assert Lined([x], pids) == if x.head || x.pid in pids then [] else [x];
  }

  lemma {:induction false} LinedKeepsSubsequences(a: seq<Slot>, b: seq<Slot>, pids: set<Pid>)
    requires IsSubsequence(a, b)
    ensures IsSubsequence(Lined(a, pids), Lined(b, pids))
    decreases |b|
  {
    if a != [] {
      LinedLast(b, pids);
      var x := b[|b| - 1];
      var last := if x.head || x.pid in pids then [] else [x];
      if a[|a| - 1] == x && IsSubsequence(a[..|a| - 1], b[..|b| - 1]) {
        LinedLast(a, pids);
        LinedKeepsSubsequences(a[..|a| - 1], b[..|b| - 1], pids);
        Reflexive(last);
        Concatenates(Lined(a[..|a| - 1], pids), Lined(b[..|b| - 1], pids), last, last);
      } else {
        LinedKeepsSubsequences(a, b[..|b| - 1], pids);
        Concatenates(Lined(a, pids), Lined(b[..|b| - 1], pids), [], last);
        assert Lined(a, pids) + [] == Lined(a, pids);
      }
    }
  }

  lemma {:induction false} WithoutPidKeepsOrder(q: seq<Slot>, p: Pid)
    ensures IsSubsequence(WithoutPid(q, p), q)
  {
    if q != [] {
      WithoutPidKeepsOrder(q[1..], p);
      KeepOrDropFirst(q[0], WithoutPid(q[1..], p), q[1..]);
      assert q == [q[0]] + q[1..];
      assert [] + WithoutPid(q[1..], p) == WithoutPid(q[1..], p);
    }
  }

  /** A queue keeps the order in which messages were handled. */
  ghost predicate InHandlingOrder(s: State, d: nat, pids: set<Pid>)
    requires d < |s.dsqs|
  {
    IsSubsequence(Lined(s.dsqs[d], pids), Lined(ForDsq(SlotsOfAll(s.h.handled), d), pids))
  }

  /** The queues it is promised for: those of CPUs; and the shared one, apart from the user-space scheduler,
      as long as enqueue has not put tasks there. */
  predicate Lining(cfg: Config, s: State, d: nat, pids: set<Pid>) {
    d < MAX_CPUS || (d == SHARED_DSQ && cfg.userPid in pids && s.n.nrCongested == 0)
  }

  lemma OrderSurvives(s: State, t: State, d: nat, pids: set<Pid>)
    requires d < |s.dsqs| && d < |t.dsqs| && InHandlingOrder(s, d, pids)
    requires IsSubsequence(t.dsqs[d], s.dsqs[d]) && t.h.handled == s.h.handled
    ensures InHandlingOrder(t, d, pids)
  {
    LinedKeepsSubsequences(t.dsqs[d], s.dsqs[d], pids);
    Transitive(Lined(t.dsqs[d], pids), Lined(s.dsqs[d], pids), Lined(ForDsq(SlotsOfAll(s.h.handled), d), pids));
  }

  lemma FirstBatchIsNotLined(cfg: Config, s: State, d: nat, pids: set<Pid>)
    requires d < MAX_CPUS || cfg.userPid in pids
    ensures Lined(ForDsq(FirstBatch(cfg, s), d), pids) == []
  {
    var first := FirstBatch(cfg, s);
    if first != [] {
      assert first == [Slot(cfg.userPid, SHARED_DSQ, false)];
      assert first[..0] == [];
      assert ForDsq(first, d) == if d == SHARED_DSQ then first else [];
      if d == SHARED_DSQ {
        LinedLast(first, pids);
      }
    }
  }

  /** Filing a batch that is the scheduler, if needed, and then what the messages left. */
  lemma FilingKeepsOrder(cfg: Config, s: State, batch: seq<Slot>, all: seq<Slot>, d: nat, pids: set<Pid>)
    requires |s.dsqs| == DSQ_COUNT && d < DSQ_COUNT && (d < MAX_CPUS || cfg.userPid in pids)
    requires FirstBatch(cfg, s) <= batch && InHandlingOrder(s, d, pids)
    requires all == SlotsOfAll(s.h.handled) + batch[|FirstBatch(cfg, s)|..]
    ensures IsSubsequence(Lined(Flush(s.dsqs, batch)[d], pids), Lined(ForDsq(all, d), pids))
  {
    var first, rest := FirstBatch(cfg, s), batch[|FirstBatch(cfg, s)|..];
    var before := SlotsOfAll(s.h.handled);
    assert batch == first + rest;
    ForDsqOfConcat(first, rest, d);
    LinedOfConcat(ForDsq(first, d), ForDsq(rest, d), pids);
    FirstBatchIsNotLined(cfg, s, d, pids);
    FlushKeepsOrder(s.dsqs, batch, d);
    ExceptOfConcat(Ordinary(s.dsqs[d]), Ordinary(ForDsq(batch, d)), pids);
    ForDsqOfConcat(before, rest, d);
    LinedOfConcat(ForDsq(before, d), ForDsq(rest, d), pids);
    var added := Lined(ForDsq(rest, d), pids);
    assert [] + added == added;
    Reflexive(added);
    Concatenates(Lined(s.dsqs[d], pids), Lined(ForDsq(before, d), pids), added, added);
  }

  lemma ConsumeIntoKeepsOrder(s: State, e: nat, cpu: nat, d: nat)
    requires e < |s.dsqs| && cpu < |s.local| && d < |s.dsqs|
    ensures IsSubsequence(ConsumeInto(s, e, cpu).dsqs[d], s.dsqs[d])
  {
    if d == e {
      ConsumptionKeepsOrder(s.dsqs[d], s.tasks, cpu, MAX_ENQUEUED_TASKS);
    } else {
      Reflexive(s.dsqs[d]);
    }
  }

  lemma DispatchKeepsHandlingOrder(cfg: Config, s: State, cpu: nat, d: nat, pids: set<Pid>)
    requires Shape(cfg, s) && cpu < cfg.nrCpus && DrainInv(s) && d < DSQ_COUNT
    requires (d < MAX_CPUS || cfg.userPid in pids) && InHandlingOrder(s, d, pids)
    ensures |DispatchStep(cfg, s, cpu).dsqs| == DSQ_COUNT && InHandlingOrder(DispatchStep(cfg, s, cpu), d, pids)
  {
    var batch := DispatchDrains(cfg, s, cpu);
    var t := DispatchStep(cfg, s, cpu);
    var all := SlotsOfAll(t.h.handled);
    FilingKeepsOrder(cfg, s, batch, all, d, pids);
    var filed := s.(dsqs := Flush(s.dsqs, batch));
    var half := ConsumeInto(filed, SHARED_DSQ, cpu);
    ConsumeIntoKeepsOrder(filed, SHARED_DSQ, cpu, d);
    ConsumeIntoKeepsOrder(half, cpu, cpu, d);
    Transitive(t.dsqs[d], half.dsqs[d], filed.dsqs[d]);
    LinedKeepsSubsequences(t.dsqs[d], filed.dsqs[d], pids);
    Transitive(Lined(t.dsqs[d], pids), Lined(filed.dsqs[d], pids), Lined(ForDsq(all, d), pids));
  }

  lemma EnqueueKeepsHandlingOrder(cfg: Config, s: State, p: Pid, cpu: nat, full: bool, d: nat, pids: set<Pid>)
    requires |s.dsqs| == DSQ_COUNT && cpu < |s.local| && p in s.tasks && (cfg.fullUser || !s.fifo)
    requires d < DSQ_COUNT && (Lining(cfg, s, d, pids) ==> InHandlingOrder(s, d, pids))
    ensures var t := EnqueueStep(cfg, s, p, cpu, full); Lining(cfg, t, d, pids) ==> InHandlingOrder(t, d, pids)
  {
    var t := EnqueueStep(cfg, s, p, cpu, full);
    if Lining(cfg, t, d, pids) {
      assert t.dsqs[d] == s.dsqs[d];
    }
  }

  lemma StepKeepsHandlingOrder(cfg: Config, s: State, e: Event, d: nat, pids: set<Pid>)
    requires Shape(cfg, s) && CanStep(cfg, s, e) && DrainInv(s) && (cfg.fullUser || !s.fifo)
    requires d < DSQ_COUNT && (Lining(cfg, s, d, pids) ==> InHandlingOrder(s, d, pids))
    ensures |Step(cfg, s, e).dsqs| == DSQ_COUNT
    ensures Lining(cfg, Step(cfg, s, e), d, pids) ==> InHandlingOrder(Step(cfg, s, e), d, pids)
  {
    StepKeepsShape(cfg, s, e);
    match e
    case Dispatch(cpu) =>
      DispatchKeepsCongestion(cfg, s, cpu);
      if Lining(cfg, s, d, pids) {
        DispatchKeepsHandlingOrder(cfg, s, cpu, d, pids);
      }
    case Enqueue(p, cpu, full) => EnqueueKeepsHandlingOrder(cfg, s, p, cpu, full, d, pids);
    case Dequeue(p) =>
      WithoutPidKeepsOrder(s.dsqs[d], p);
      if Lining(cfg, s, d, pids) {
        OrderSurvives(s, Step(cfg, s, e), d, pids);
      }
    case _ =>
      if Quiet(e) {
        QuietStepsKeepQueues(cfg, s, e);
      } else {
        TaskStepsKeepQueues(cfg, s, e);
      }
  }

  lemma {:induction false} QueuesKeepHandlingOrder(cfg: Config, s: State, es: seq<Event>, d: nat, pids: set<Pid>)
    requires Initial(cfg, s) && IsRun(cfg, s, es) && (cfg.fullUser || !cfg.fifoSched) && d < DSQ_COUNT
    ensures Lining(cfg, After(cfg, s, es), d, pids) ==> InHandlingOrder(After(cfg, s, es), d, pids)
  {
    if es == [] {
    } else {
      QueuesKeepHandlingOrder(cfg, s, es[..|es| - 1], d, pids);
      InitialInv(cfg, s);
      InvHolds(cfg, s, es[..|es| - 1]);
      StepKeepsHandlingOrder(cfg, After(cfg, s, es[..|es| - 1]), es[|es| - 1], d, pids);
    }
  }

  /** In every run without FIFO mode, the tasks in the queue of a CPU that were not sent there with
      RL_PREEMPT_CPU are in the order in which their messages were handled, across all dispatches. */
  lemma CpuQueuesAreFifo(cfg: Config, s: State, es: seq<Event>, c: nat)
    requires Initial(cfg, s) && IsRun(cfg, s, es) && (cfg.fullUser || !cfg.fifoSched) && c < MAX_CPUS
    ensures var t := After(cfg, s, es);
            IsSubsequence(Ordinary(t.dsqs[c]), Ordinary(ForDsq(SlotsOfAll(t.h.handled), c)))
  {
    QueuesKeepHandlingOrder(cfg, s, es, c, {});
    ExceptNobody(Ordinary(After(cfg, s, es).dsqs[c]));
    ExceptNobody(Ordinary(ForDsq(SlotsOfAll(After(cfg, s, es).h.handled), c)));
  }

  /** And so are those in the shared queue, apart from the user-space scheduler, unless the ring to user space
      has overflowed. */
  lemma SharedQueueIsFifo(cfg: Config, s: State, es: seq<Event>)
    requires Initial(cfg, s) && IsRun(cfg, s, es) && (cfg.fullUser || !cfg.fifoSched)
    requires After(cfg, s, es).n.nrCongested == 0
    ensures var t, others := After(cfg, s, es), {cfg.userPid};
            IsSubsequence(Except(Ordinary(t.dsqs[SHARED_DSQ]), others),
                          Except(Ordinary(ForDsq(SlotsOfAll(t.h.handled), SHARED_DSQ)), others))
  {
    QueuesKeepHandlingOrder(cfg, s, es, SHARED_DSQ, {cfg.userPid});
  }
}
