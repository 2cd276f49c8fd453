/** What a state of the backend says about the run that led to it: its tasks, its masks, its rings, its counters and
    what it has handled, told from the events alone. */
module RustlandHistory {
  import opened Words
  import opened Subsequences
  import opened Rustland
  import opened RustlandProtocol
  import opened RustlandRuns

  // Tasks, masks and CPUs

  predicate Born(es: seq<Event>, p: Pid) {
    es != [] && (Born(es[..|es| - 1], p) || (es[|es| - 1].Init? && es[|es| - 1].p == p))
  }

  predicate Died(es: seq<Event>, p: Pid) {
    es != [] && (Died(es[..|es| - 1], p) || (es[|es| - 1].Die? && es[|es| - 1].p == p))
  }

  predicate SetsMask(e: Event, p: Pid) {
    (e.Init? || e.SetCpumask?) && e.p == p
  }

  /** The mask of the last event that gave the task one. */
  function LastMask(es: seq<Event>, p: Pid): set<nat> {
    if es == [] then {}
    else if SetsMask(es[|es| - 1], p) then es[|es| - 1].mask
    else LastMask(es[..|es| - 1], p)
  }

  /** The tasks whose mask was changed, in order. */
  function MaskChanges(es: seq<Event>): seq<Pid> {
    if es == [] then []
    else MaskChanges(es[..|es| - 1]) + if es[|es| - 1].SetCpumask? then [es[|es| - 1].p] else []
  }

  function Submissions(es: seq<Event>): seq<DMsg> {
    if es == [] then []
    else Submissions(es[..|es| - 1]) + if es[|es| - 1].UserSubmit? then [es[|es| - 1].m] else []
  }

  /** The task that started on a CPU and has not stopped there since, or 0. */
  function Occupant(es: seq<Event>, c: nat): Pid {
    if es == [] then 0
    else
      match es[|es| - 1]
      case Run(p, cpu) => if cpu == c then p else Occupant(es[..|es| - 1], c)
      case Stop(_, cpu) => if cpu == c then 0 else Occupant(es[..|es| - 1], c)
      case _ => Occupant(es[..|es| - 1], c)
  }

  /** What one event does to the tasks and their masks. */
  ghost predicate TasksFollow(s: State, e: Event, t: State) {
    && (forall p :: p in t.tasks <==>
          (p in s.tasks && !(e.Die? && e.p == p)) || (e.Init? && e.p == p))
    && (forall p :: p in t.tasks ==>
          t.tasks[p].mask == if SetsMask(e, p) then e.mask else if p in s.tasks then s.tasks[p].mask else {})
    && (forall p :: p in t.dead <==> p in s.dead || (e.Die? && e.p == p))
  }

  /** What it does to the history and to the CPUs. */
  ghost predicate LogsFollow(s: State, e: Event, t: State) {
    && t.h.maskLog == s.h.maskLog + (if e.SetCpumask? then [e.p] else [])
    && t.h.submitted == s.h.submitted + (if e.UserSubmit? then [e.m] else [])
    && t.onCpu == if e.Run? then s.onCpu[e.cpu := e.p] else if e.Stop? then s.onCpu - {e.cpu} else s.onCpu
  }

  /** The tasks, the history of masks and messages, and the CPUs are the same. */
  ghost predicate NothingTold(s: State, t: State) {
    && t.tasks == s.tasks && t.dead == s.dead && t.onCpu == s.onCpu
    && t.h.maskLog == s.h.maskLog && t.h.submitted == s.h.submitted
  }

  lemma NothingFollows(s: State, e: Event, t: State)
    requires NothingTold(s, t)
    requires !e.Init? && !e.Die? && !e.SetCpumask? && !e.UserSubmit? && !e.Run? && !e.Stop?
    ensures TasksFollow(s, e, t) && LogsFollow(s, e, t)
  {
  }

  lemma DispatchTellsNothing(cfg: Config, s: State, cpu: nat)
    requires Shape(cfg, s) && cpu < cfg.nrCpus
    ensures NothingTold(s, DispatchStep(cfg, s, cpu))
  {
    DrainKeepsQueues(FlagCleared(cfg, s), FirstBatch(cfg, s));
  }

  lemma EnqueueTellsNothing(cfg: Config, s: State, p: Pid, cpu: nat, full: bool)
    requires |s.dsqs| == DSQ_COUNT && cpu < |s.local| && p in s.tasks
    ensures NothingTold(s, EnqueueStep(cfg, s, p, cpu, full))
  {
  }

  lemma QuietStepsFollow(cfg: Config, s: State, e: Event)
    requires Shape(cfg, s) && CanStep(cfg, s, e) && Quiet(e)
    ensures TasksFollow(s, e, Step(cfg, s, e)) && LogsFollow(s, e, Step(cfg, s, e))
  {
    QuietStepsChangeLittle(cfg, s, e);
  }

  lemma MessagesFollow(cfg: Config, s: State, e: Event)
    requires Shape(cfg, s) && CanStep(cfg, s, e) && (e.Exit? || e.UserReceive?)
    ensures TasksFollow(s, e, Step(cfg, s, e)) && LogsFollow(s, e, Step(cfg, s, e))
  {
    var t := Step(cfg, s, e);
    assert NothingTold(s, t);
    NothingFollows(s, e, t);
  }

  lemma TaskStepsFollow(cfg: Config, s: State, e: Event)
    requires Shape(cfg, s) && CanStep(cfg, s, e)
    requires e.Init? || e.Die? || e.SetCpumask? || e.UserSubmit?
    ensures TasksFollow(s, e, Step(cfg, s, e)) && LogsFollow(s, e, Step(cfg, s, e))
  {
  }

  lemma StepFollows(cfg: Config, s: State, e: Event)
    requires Shape(cfg, s) && CanStep(cfg, s, e)
    ensures TasksFollow(s, e, Step(cfg, s, e)) && LogsFollow(s, e, Step(cfg, s, e))
  {
    match e
    case Dispatch(cpu) =>
      DispatchTellsNothing(cfg, s, cpu);
      NothingFollows(s, e, Step(cfg, s, e));
    case Enqueue(p, cpu, full) =>
      EnqueueTellsNothing(cfg, s, p, cpu, full);
      NothingFollows(s, e, Step(cfg, s, e));
    case _ =>
      if Quiet(e) {
        QuietStepsFollow(cfg, s, e);
      } else if e.Exit? || e.UserReceive? {
        MessagesFollow(cfg, s, e);
      } else {
        TaskStepsFollow(cfg, s, e);
      }
  }

  /** In every run the tasks are those that were created and have not died, each with the last mask it was given;
      and the log of mask changes is that of the run. */
  lemma {:induction false} TasksAreHistory(cfg: Config, s: State, es: seq<Event>, p: Pid)
    requires Initial(cfg, s) && IsRun(cfg, s, es)
    ensures var t := After(cfg, s, es);
            && (p in t.tasks <==> Born(es, p) && !Died(es, p))
            && (p in t.tasks ==> t.tasks[p].mask == LastMask(es, p))
            && (p in t.dead <==> Died(es, p))
            && t.h.maskLog == MaskChanges(es)
  {
    if es == [] {
    } else {
      var front := es[..|es| - 1];
      TasksAreHistory(cfg, s, front, p);
      StepFollows(cfg, After(cfg, s, front), es[|es| - 1]);
    }
  }

  lemma {:induction false} SubmittedIsHistory(cfg: Config, s: State, es: seq<Event>)
    requires Initial(cfg, s) && IsRun(cfg, s, es)
    ensures After(cfg, s, es).h.submitted == Submissions(es)
  {
    if es == [] {
    } else {
      SubmittedIsHistory(cfg, s, es[..|es| - 1]);
      StepFollows(cfg, After(cfg, s, es[..|es| - 1]), es[|es| - 1]);
    }
  }

  lemma {:induction false} OnCpuIsHistory(cfg: Config, s: State, es: seq<Event>, c: nat)
    requires Initial(cfg, s) && IsRun(cfg, s, es)
    ensures var t := After(cfg, s, es); Occupant(es, c) == if c in t.onCpu then t.onCpu[c] else 0
  {
    if es == [] {
    } else {
      OnCpuIsHistory(cfg, s, es[..|es| - 1], c);
      StepFollows(cfg, After(cfg, s, es[..|es| - 1]), es[|es| - 1]);
    }
  }

  /** In every run cpu_map names, for each CPU, the task that last started on it and has not stopped since, and 0
      for the user-space scheduler. */
  lemma CpuMapIsHistory(cfg: Config, s: State, es: seq<Event>, c: nat)
    requires Initial(cfg, s) && IsRun(cfg, s, es) && c < MAX_CPUS
    ensures After(cfg, s, es).cpuMap[c] == if Occupant(es, c) == cfg.userPid then 0 else Occupant(es, c)
  {
    OnCpuIsHistory(cfg, s, es, c);
    InitialInv(cfg, s);
    InvHolds(cfg, s, es);
  }

  // The ring to user space

  /** The message an event sends to user space, if it sends one. */
  function SentIn(cfg: Config, s: State, e: Event): seq<QMsg> {
    if !Sends(cfg, s, e) then []
    else
      match e
      case Exit(p, _, garbage) => [QMsg(p, -1, garbage, true, |s.h.maskLog|)]
      case Enqueue(p, cpu, _) =>
        if p in s.tasks then [QMsg(p, cpu, s.tasks[p].cnt, false, |s.h.maskLog|)] else []
      case _ => []
  }

  ghost function Sent(cfg: Config, s: State, es: seq<Event>): seq<QMsg>
    requires Shape(cfg, s) && IsRun(cfg, s, es)
  {
    if es == [] then []
    else Sent(cfg, s, es[..|es| - 1]) + SentIn(cfg, After(cfg, s, es[..|es| - 1]), es[|es| - 1])
  }

  /** An event adds what it sends at the end of what was received or waits on the ring. */
  ghost predicate RingFollows(cfg: Config, s: State, e: Event, t: State) {
    && t.received + t.queued == s.received + s.queued + SentIn(cfg, s, e)
    && |t.received| == |s.received| + (if e.UserReceive? then 1 else 0)
  }

  lemma RingStays(cfg: Config, s: State, e: Event, t: State)
    requires t.received == s.received && t.queued == s.queued && SentIn(cfg, s, e) == [] && !e.UserReceive?
    ensures RingFollows(cfg, s, e, t)
  {
    assert s.received + s.queued + [] == s.received + s.queued;
  }

  lemma RingGrows(cfg: Config, s: State, e: Event, t: State)
    requires t.received == s.received && t.queued == s.queued + SentIn(cfg, s, e) && !e.UserReceive?
    ensures RingFollows(cfg, s, e, t)
  {
    AppendAssociates(s.received, s.queued, SentIn(cfg, s, e));
  }

  lemma ReceivingMoves(cfg: Config, s: State, t: State)
    requires s.queued != [] && t.received == s.received + [s.queued[0]] && t.queued == s.queued[1..]
    ensures RingFollows(cfg, s, UserReceive, t)
  {
    assert s.queued == [s.queued[0]] + s.queued[1..];
    AppendAssociates(s.received, [s.queued[0]], s.queued[1..]);
  }

  lemma EnqueueFollows(cfg: Config, s: State, p: Pid, cpu: nat, full: bool)
    requires |s.dsqs| == DSQ_COUNT && cpu < |s.local| && p in s.tasks
    ensures var t := EnqueueStep(cfg, s, p, cpu, full);
            t.received == s.received && t.queued == s.queued + SentIn(cfg, s, Enqueue(p, cpu, full))
  {
  }

  lemma StepMovesMessages(cfg: Config, s: State, e: Event)
    requires Shape(cfg, s) && CanStep(cfg, s, e)
    ensures RingFollows(cfg, s, e, Step(cfg, s, e))
  {
    var t := Step(cfg, s, e);
    match e
    case Dispatch(cpu) =>
      DrainKeepsQueues(FlagCleared(cfg, s), FirstBatch(cfg, s));
      RingStays(cfg, s, e, t);
    case Enqueue(p, cpu, full) =>
      EnqueueFollows(cfg, s, p, cpu, full);
      RingGrows(cfg, s, e, t);
    case Exit(_, _, _) => RingGrows(cfg, s, e, t);
    case UserReceive => ReceivingMoves(cfg, s, t);
    case _ =>
      if Quiet(e) {
        QuietStepsKeepMessages(cfg, s, e);
      }
      RingStays(cfg, s, e, t);
  }

  function Received(es: seq<Event>): nat {
    if es == [] then 0 else Received(es[..|es| - 1]) + if es[|es| - 1].UserReceive? then 1 else 0
  }

  /** In every run the messages user space has received, followed by those on the ring, are the messages sent, in
      order: each names its task, the CPU the task was on (-1 in an exit notice) and its generation counter. */
  lemma {:induction false} RingIsFifo(cfg: Config, s: State, es: seq<Event>)
    requires Initial(cfg, s) && IsRun(cfg, s, es)
    ensures After(cfg, s, es).received + After(cfg, s, es).queued == Sent(cfg, s, es)
    ensures |After(cfg, s, es).received| == Received(es)
  {
    if es == [] {
    } else {
      RingIsFifo(cfg, s, es[..|es| - 1]);
      StepMovesMessages(cfg, After(cfg, s, es[..|es| - 1]), es[|es| - 1]);
    }
  }

  // What was handled

  predicate Met(s: State, p: Pid) {
    p in s.tasks || p in s.dead
  }

  /** Every message is about a task that exists or has died, and one that found no task is about a dead one. */
  ghost predicate NoStrangers(s: State) {
    && (forall q :: q in s.received + s.queued ==> Met(s, q.pid))
    && (forall m :: m in s.h.submitted ==> Met(s, m.pid))
    && (forall r :: r in s.h.handled ==> Met(s, r.msg.pid) && (!r.live ==> r.msg.pid in s.dead))
  }

  /** What a handled message records of the state it was handled in. */
  predicate Records(s: State, r: Handled) {
    && (r.live <==> r.msg.pid in s.tasks)
    && (r.live ==> r.mask == s.tasks[r.msg.pid].mask)
    && r.at == |s.h.maskLog|
  }

  lemma {:induction false} DrainRecords(s: State, batch: seq<Slot>, r: Handled)
    requires r in Drain(s, batch).0.h.handled
    ensures r in s.h.handled || (Records(s, r) && r.msg in s.dispatched)
    decreases |s.dispatched|
  {
    if s.dispatched == [] {
    } else {
      var o := OutcomeOf(s.tasks, s.dispatched[0]);
      var batch' := batch + SlotsOf(s.dispatched[0], o);
      if o != Gone && |batch'| >= MAX_DISPATCH_SLOT {
      } else {
        DrainRecords(HandleFirst(s), batch', r);
      }
    }
  }

  lemma DispatchRecords(cfg: Config, s: State, cpu: nat, r: Handled)
    requires Shape(cfg, s) && cpu < cfg.nrCpus && r in DispatchStep(cfg, s, cpu).h.handled
    ensures r in s.h.handled || (Records(s, r) && r.msg in s.dispatched)
  {
    DrainRecords(FlagCleared(cfg, s), FirstBatch(cfg, s), r);
  }

  lemma OthersHandleNothing(cfg: Config, s: State, e: Event)
    requires Shape(cfg, s) && CanStep(cfg, s, e) && !e.Dispatch?
    ensures Step(cfg, s, e).h.handled == s.h.handled
  {
    OthersDoNotFail(cfg, s, e);
  }

  /** A handled message was handled by some dispatch of the run, and it records whether its task existed then, the
      mask of the task and the number of mask changes. */
  lemma {:induction false} HandledAtSomeDispatch(cfg: Config, s: State, es: seq<Event>, r: Handled) returns (k: nat)
    requires Initial(cfg, s) && IsRun(cfg, s, es) && r in After(cfg, s, es).h.handled
    ensures k < |es| && es[k].Dispatch? && IsRun(cfg, s, es[..k]) && Records(After(cfg, s, es[..k]), r)
  {
    var front, e := es[..|es| - 1], es[|es| - 1];
    var t := After(cfg, s, front);
    if r in t.h.handled {
      k := HandledAtSomeDispatch(cfg, s, front, r);
      PrefixOfFront(es, k);
    } else {
      k := |front|;
      if e.Dispatch? {
        DispatchRecords(cfg, t, e.cpu, r);
      } else {
        OthersHandleNothing(cfg, t, e);
      }
    }
  }

  lemma MetStays(s: State, e: Event, t: State, p: Pid)
    requires TasksFollow(s, e, t) && Met(s, p)
    ensures Met(t, p)
  {
  }

  lemma RingHasNoStrangers(cfg: Config, s: State, e: Event)
    requires Shape(cfg, s) && CanStep(cfg, s, e) && NoStrangers(s)
    ensures forall q :: q in Step(cfg, s, e).received + Step(cfg, s, e).queued ==> Met(Step(cfg, s, e), q.pid)
  {
    var t := Step(cfg, s, e);
    StepFollows(cfg, s, e);
    StepMovesMessages(cfg, s, e);
    forall q | q in t.received + t.queued ensures Met(t, q.pid) {
      if q in s.received + s.queued {
        MetStays(s, e, t, q.pid);
      } else {
        assert q in SentIn(cfg, s, e);
      }
    }
  }

  lemma SubmittedHasNoStrangers(cfg: Config, s: State, e: Event)
    requires Shape(cfg, s) && CanStep(cfg, s, e) && NoStrangers(s)
    ensures forall m :: m in Step(cfg, s, e).h.submitted ==> Met(Step(cfg, s, e), m.pid)
  {
    var t := Step(cfg, s, e);
    StepFollows(cfg, s, e);
    forall m | m in t.h.submitted ensures Met(t, m.pid) {
      if m in s.h.submitted {
        MetStays(s, e, t, m.pid);
      } else {
        var q :| q in s.received && DerivedFrom(m, q);
        assert q in s.received + s.queued;
        MetStays(s, e, t, m.pid);
      }
    }
  }

  lemma HandledHasNoStrangers(cfg: Config, s: State, e: Event)
    requires Shape(cfg, s) && CanStep(cfg, s, e) && NoStrangers(s) && DrainInv(s)
    ensures forall r :: r in Step(cfg, s, e).h.handled ==>
              Met(Step(cfg, s, e), r.msg.pid) && (!r.live ==> r.msg.pid in Step(cfg, s, e).dead)
  {
    var t := Step(cfg, s, e);
    StepFollows(cfg, s, e);
    if !e.Dispatch? {
      OthersHandleNothing(cfg, s, e);
    }
    forall r | r in t.h.handled ensures Met(t, r.msg.pid) && (!r.live ==> r.msg.pid in t.dead) {
      if r !in s.h.handled {
        DispatchRecords(cfg, s, e.cpu, r);
        assert r.msg in s.h.submitted;
      }
      MetStays(s, e, t, r.msg.pid);
    }
  }

  lemma {:induction false} StrangersNeverAppear(cfg: Config, s: State, es: seq<Event>)
    requires Initial(cfg, s) && IsRun(cfg, s, es)
    ensures NoStrangers(After(cfg, s, es))
  {
    if es == [] {
    } else {
      var front, e := es[..|es| - 1], es[|es| - 1];
      StrangersNeverAppear(cfg, s, front);
      InitialInv(cfg, s);
      InvHolds(cfg, s, front);
      RingHasNoStrangers(cfg, After(cfg, s, front), e);
      SubmittedHasNoStrangers(cfg, After(cfg, s, front), e);
      HandledHasNoStrangers(cfg, After(cfg, s, front), e);
    }
  }

  /** In every run a handled message was ignored only if its task had died. */
  lemma IgnoredOnlyIfDead(cfg: Config, s: State, es: seq<Event>, r: Handled)
    requires Initial(cfg, s) && IsRun(cfg, s, es) && r in After(cfg, s, es).h.handled
    ensures r.outcome == Gone ==> Died(es, r.msg.pid)
  {
    InitialInv(cfg, s);
    InvHolds(cfg, s, es);
    StrangersNeverAppear(cfg, s, es);
    TasksAreHistory(cfg, s, es, r.msg.pid);
    assert RightVerdict(After(cfg, s, es).h.maskLog, r);
  }

  /** The slots a message must leave in the batch, told from the history: none if the task is gone or the message
      is stale, one for the CPU it names if that is allowed, and else one for the shared queue. */
  function SlotsDue(log: seq<Pid>, r: Handled): seq<Slot>
    requires r.msg.stamp <= r.at <= |log|
  {
    if !r.live then []
    else if r.msg.anyCpu || r.msg.cpu < 0 || r.msg.cpu >= 1024 then [Slot(r.msg.pid, 1024, r.msg.preempt)]
    else if r.msg.pid in log[r.msg.stamp..r.at] then []
    else if r.msg.cpu in r.mask then [Slot(r.msg.pid, r.msg.cpu, r.msg.preempt)]
    else [Slot(r.msg.pid, 1024, r.msg.preempt)]
  }

  /** A valid CPU in the answer to an exit notice, whose generation counter says nothing. */
  predicate Unstamped(r: Handled) {
    r.msg.exiting && r.live && !r.msg.anyCpu && 0 <= r.msg.cpu < MAX_CPUS
  }

  lemma SlotsAreDue(log: seq<Pid>, r: Handled)
    requires RightVerdict(log, r) && !Unstamped(r) && |log| < TWO64
    ensures SlotsOf(r.msg, r.outcome) == SlotsDue(log, r)
  {
    if r.live && !r.msg.anyCpu && 0 <= r.msg.cpu < MAX_CPUS {
      VerdictInShortHistory(log, r);
    }
  }

  /** In every run each message, but for unstamped ones, left in the batch exactly that. */
  lemma MessageLeavesItsSlots(cfg: Config, s: State, es: seq<Event>, r: Handled)
    requires Initial(cfg, s) && IsRun(cfg, s, es) && r in After(cfg, s, es).h.handled
    requires !Unstamped(r) && |After(cfg, s, es).h.maskLog| < TWO64
    ensures r.msg.stamp <= r.at <= |After(cfg, s, es).h.maskLog|
    ensures SlotsOf(r.msg, r.outcome) == SlotsDue(After(cfg, s, es).h.maskLog, r)
  {
    InitialInv(cfg, s);
    InvHolds(cfg, s, es);
    var log := After(cfg, s, es).h.maskLog;
    assert RightVerdict(log, r);
    SlotsAreDue(log, r);
  }
}
