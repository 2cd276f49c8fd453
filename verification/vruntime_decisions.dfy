/** Which task each callback of the vruntime scheduler moves, and where to, told from the queues before and after. */
module VruntimeDecisions {
  import opened Words
  import opened Arithmetic
  import opened Placement
  import opened IdleCpu
  import opened Vruntime
  import opened VruntimeInvariants
  import opened Starvation
  import opened VruntimeRuns

  // Dispatch

  /** A queue holds a task the CPU may run. */
  predicate HasTask(s: State, d: nat, cpu: nat)
    requires d < |s.places.dsqs|
  {
    exists p :: p in s.places.dsqs[d] && p in s.tasks && cpu in s.tasks[p].cpus
  }

  lemma ReadyMeansHasTask(s: State, d: nat, cpu: nat)
    requires d < |s.places.dsqs|
    ensures Ready(s, d, cpu) <==> HasTask(s, d, cpu)
  {
    var q := s.places.dsqs[d];
    var i := FirstRunnable(q, s.tasks, cpu);
    if i < |q| {
      assert q[i] in q;
    }
  }

  /** How a CPU ranks the queues it may take from: its own first, then those of offline CPUs in cyclic order, then
      PRIO_DSQ and last SHARED_DSQ. */
  function Rank(cfg: Config, cpu: nat, d: nat): int {
    if d < cfg.topo.count then (if d >= cpu then d - cpu else d + cfg.topo.count - cpu)
    else if d == PRIO_DSQ then cfg.topo.count
    else cfg.topo.count + 1
  }

  lemma LoopCpuHasRank(cfg: Config, cpu: nat, k: nat)
    requires cpu < cfg.topo.count <= MAX_CPUS && k < cfg.topo.count
    ensures LoopCpu(cfg, cpu, k) < cfg.topo.count && Rank(cfg, cpu, LoopCpu(cfg, cpu, k)) == k
  {
    ModOnce(cpu + k, cfg.topo.count);
  }

  lemma RankedCpuIsInLoop(cfg: Config, cpu: nat, c: nat)
    requires cpu < cfg.topo.count <= MAX_CPUS && c < cfg.topo.count
    ensures 0 <= Rank(cfg, cpu, c) < cfg.topo.count && LoopCpu(cfg, cpu, Rank(cfg, cpu, c)) == c
  {
    ModOnce(cpu + Rank(cfg, cpu, c), cfg.topo.count);
  }

  /** The loop comes to an offline queue with a task before it comes to any of higher rank. */
  lemma {:induction false} OfflineSourceIsNearest(cfg: Config, s: State, cpu: nat, k: nat, c: nat)
    requires 1 <= cfg.topo.count <= MAX_CPUS && cfg.topo.count <= |s.places.dsqs| && cpu < cfg.topo.count
    requires c < cfg.topo.count && c in s.offline && Ready(s, c, cpu) && k <= Rank(cfg, cpu, c)
    ensures OfflineSource(cfg, s, cpu, k) < cfg.topo.count
    ensures Rank(cfg, cpu, OfflineSource(cfg, s, cpu, k)) <= Rank(cfg, cpu, c)
    decreases cfg.topo.count - k
  {
    RankedCpuIsInLoop(cfg, cpu, c);
    LoopCpuHasRank(cfg, cpu, k);
    if k < Rank(cfg, cpu, c) {
      OfflineSourceIsNearest(cfg, s, cpu, k + 1, c);
    }
  }

  /** What an unforced dispatch takes has the least rank of all it could take. */
  lemma UnforcedSourceIsNearest(cfg: Config, s: State, cpu: nat, now: U64, d: nat)
    requires Inv(cfg, s) && CanStep(cfg, s, Dispatch(cpu, now)) && d < DSQ_COUNT
    requires SourceOf(cfg, s, cpu, now).From? && !SourceOf(cfg, s, cpu, now).forced
    requires Reachable(s, cpu, d) && Ready(s, d, cpu)
    ensures Rank(cfg, cpu, SourceOf(cfg, s, cpu, now).dsq) <= Rank(cfg, cpu, d)
  {
    if d in s.offline && d != cpu {
      OfflineSourceIsNearest(cfg, s, cpu, 1, d);
    }
  }

  /** A dispatch takes the i-th task of queue d, the first one in it that the CPU may run, to the CPU, and refreshes
      the timestamp of the queue; nothing else changes. */
  ghost predicate TakesTask(s: State, t: State, cpu: nat, now: U64, d: nat, i: nat)
    requires d < |s.places.dsqs| && cpu < |s.places.local|
  {
    var q := s.places.dsqs[d];
    && i < |q| && q[i] in s.tasks && cpu in s.tasks[q[i]].cpus
    && (forall j :: 0 <= j < i && q[j] in s.tasks ==> cpu !in s.tasks[q[j]].cpus)
    && t == s.(places := Places(s.places.dsqs[d := q[..i] + q[i + 1..]],
                                s.places.local[cpu := s.places.local[cpu] + [q[i]]],
                                s.places.loc[q[i] := Local(cpu)]),
               sharedTs := if d == SHARED_DSQ then now else s.sharedTs,
               prioTs := if d == PRIO_DSQ then now else s.prioTs,
               ktime := now)
  }

  lemma {:induction false} WithoutFirst(q: seq<Pid>, i: nat)
    requires i < |q| && q[i] !in q[..i]
    ensures Without(q, q[i]) == q[..i] + q[i + 1..]
  {
    if i > 0 {
      assert q[1..][..i - 1] == q[..i][1..];
      assert q[0] in q[..i];
      WithoutFirst(q[1..], i - 1);
      assert q[..i] == [q[0]] + q[1..][..i - 1];
    }
  }

  lemma ServingTakesTask(s: State, cpu: nat, now: U64, d: nat)
    requires WellPlaced(s.places) && d < |s.places.dsqs| && cpu < |s.places.local| && Ready(s, d, cpu)
    ensures TakesTask(s, Serve(s, d, cpu, now).(ktime := now), cpu, now, d,
                      FirstRunnable(s.places.dsqs[d], s.tasks, cpu))
  {
    var p := ConsumedTask(s, d, cpu);
    var q, i := s.places.dsqs[d], FirstRunnable(s.places.dsqs[d], s.tasks, cpu);
    assert p !in q[..i];
    WithoutFirst(q, i);
    var l := s.places.local[cpu];
    assert InsertAt(l, |l|, p) == l + [p];
    var pl := Serve(s, d, cpu, now).places;
    assert pl.loc == s.places.loc[p := Local(cpu)];
  }

  /** Which queue must give a task: an overdue SHARED_DSQ before an overdue PRIO_DSQ, and else the one of least
      rank. */
  ghost predicate RightQueue(cfg: Config, s: State, cpu: nat, d: nat, sharedDue: bool, prioDue: bool)
    requires |s.places.dsqs| == DSQ_COUNT && d < DSQ_COUNT
  {
    if sharedDue && HasTask(s, SHARED_DSQ, cpu) then d == SHARED_DSQ
    else if prioDue && HasTask(s, PRIO_DSQ, cpu) then d == PRIO_DSQ
    else forall e :: 0 <= e < DSQ_COUNT && Reachable(s, cpu, e) && HasTask(s, e, cpu) ==>
           Rank(cfg, cpu, d) <= Rank(cfg, cpu, e)
  }

  lemma SourceIsRight(cfg: Config, s: State, cpu: nat, now: U64, d: nat, forced: bool)
    requires Inv(cfg, s) && CanStep(cfg, s, Dispatch(cpu, now)) && SourceOf(cfg, s, cpu, now) == From(d, forced)
    ensures RightQueue(cfg, s, cpu, d, Due(cfg.starveThresh, s.sharedTs, now), Due(cfg.starveThresh, s.prioTs, now))
  {
    OverdueMeansLate(cfg, s.sharedTs, now);
    OverdueMeansLate(cfg, s.prioTs, now);
    ReadyMeansHasTask(s, SHARED_DSQ, cpu);
    ReadyMeansHasTask(s, PRIO_DSQ, cpu);
    if !forced {
      forall e | 0 <= e < DSQ_COUNT && Reachable(s, cpu, e) && HasTask(s, e, cpu)
        ensures Rank(cfg, cpu, d) <= Rank(cfg, cpu, e)
      {
        ReadyMeansHasTask(s, e, cpu);
        UnforcedSourceIsNearest(cfg, s, cpu, now, e);
      }
    }
  }

  /** Nothing the CPU could take. */
  ghost predicate NothingToTake(s: State, cpu: nat)
    requires |s.places.dsqs| == DSQ_COUNT
  {
    forall e :: 0 <= e < DSQ_COUNT && Reachable(s, cpu, e) ==> !HasTask(s, e, cpu)
  }

  /** What a dispatch does in a state, in full. */
  ghost predicate DispatchedRightly(cfg: Config, s: State, t: State, cpu: nat, now: U64, sharedDue: bool, prioDue: bool,
                                    d: nat, i: nat)
    requires Shape(cfg, s) && cpu < cfg.topo.count
  {
    if NothingToTake(s, cpu) then t == s.(ktime := now)
    else
      && d < DSQ_COUNT && Reachable(s, cpu, d) && RightQueue(cfg, s, cpu, d, sharedDue, prioDue)
      && TakesTask(s, t, cpu, now, d, i)
  }

  lemma StateIsDispatchedRightly(cfg: Config, s: State, cpu: nat, now: U64) returns (d: nat, i: nat)
    requires Inv(cfg, s) && CanStep(cfg, s, Dispatch(cpu, now))
    ensures DispatchedRightly(cfg, s, DispatchStep(cfg, s, cpu, now), cpu, now,
                              Due(cfg.starveThresh, s.sharedTs, now), Due(cfg.starveThresh, s.prioTs, now), d, i)
  {
    d, i := 0, 0;
    forall e | 0 <= e < DSQ_COUNT
      ensures Ready(s, e, cpu) <==> HasTask(s, e, cpu)
    {
      ReadyMeansHasTask(s, e, cpu);
    }
    NowhereMeansNothingReachable(cfg, s, cpu, now);
    match SourceOf(cfg, s, cpu, now)
    case Nowhere =>
    case From(dsq, forced) =>
      d, i := dsq, FirstRunnable(s.places.dsqs[dsq], s.tasks, cpu);
      SourceIsRight(cfg, s, cpu, now, d, forced);
      ServingTakesTask(s, cpu, now, d);
  }

  /** In every run a dispatch changes nothing but the time if no queue it may take from has a task for its CPU. Else
      it takes one task: from SHARED_DSQ if that has one and was last served more than the threshold ago, else from
      PRIO_DSQ under the same condition, and else from the queue of least rank. */
  lemma DispatchTakesNearest(cfg: Config, s: State, es: seq<Event>, cpu: nat, now: U64) returns (d: nat, i: nat)
    requires Inv(cfg, s) && IsRun(cfg, s, es) && CanStep(cfg, After(cfg, s, es), Dispatch(cpu, now))
    ensures DispatchedRightly(cfg, After(cfg, s, es), DispatchStep(cfg, After(cfg, s, es), cpu, now), cpu, now,
                              OverdueInRun(cfg, s, es, SHARED_DSQ, s.sharedTs, now),
                              OverdueInRun(cfg, s, es, PRIO_DSQ, s.prioTs, now), d, i)
  {
    LogFollowsRule(cfg, s, es);
    d, i := StateIsDispatchedRightly(cfg, After(cfg, s, es), cpu, now);
  }

  // Enqueue and select_cpu

  /** The slice a task is given: the midpoint of what was left of its last one and slice_ns_min, rounded down, brought
      into the range of the two options. */
  predicate GivesSlice(cfg: Config, left: U64, slice: U64) {
    var twice := Wrap(left + cfg.sliceMin);
    if twice < 2 * cfg.sliceMin then slice == cfg.sliceMin
    else if twice >= 2 * cfg.sliceNs + 2 then slice == cfg.sliceNs
    else 2 * slice <= twice < 2 * slice + 2
  }

  lemma TaskSliceIsMidpoint(cfg: Config, left: U64)
    requires cfg.sliceMin <= cfg.sliceNs
    ensures GivesSlice(cfg, left, TaskSlice(cfg, left))
  {
  }

  /** The task joins queue d at its i-th place, behind all it does not come before, with a new slice; the other tasks
      and queues stay as they are. */
  ghost predicate JoinsQueue(cfg: Config, s: State, t: State, p: Pid, d: nat, i: nat)
    requires p in s.tasks && d < |s.places.dsqs|
  {
    var q := s.places.dsqs[d];
    && i <= |q|
    && t.places == Places(s.places.dsqs[d := q[..i] + [p] + q[i..]], s.places.local, s.places.loc[p := Queued(d)])
    && p in t.tasks && GivesSlice(cfg, s.tasks[p].slice, t.tasks[p].slice)
    && (forall j :: 0 <= j < i && q[j] in s.tasks ==> !VtimeBefore(t.tasks[p].vtime, s.tasks[q[j]].vtime))
    && (i < |q| ==> q[i] in s.tasks && VtimeBefore(t.tasks[p].vtime, s.tasks[q[i]].vtime))
    && t.tasks == s.tasks[p := s.tasks[p].(vtime := t.tasks[p].vtime, slice := t.tasks[p].slice)]
  }

  lemma DispatchVtimeJoins(cfg: Config, s: State, p: Pid, d: nat, v: U64) returns (i: nat)
    requires ValidConfig(cfg) && d < |s.places.dsqs| && p in s.tasks
    ensures JoinsQueue(cfg, s, DispatchVtime(s, p, d, TaskSlice(cfg, s.tasks[p].slice), v), p, d, i)
  {
    i := InsertPos(s.places.dsqs[d], s.tasks, v);
    TaskSliceIsMidpoint(cfg, s.tasks[p].slice);
  }

  /** There is room for another interactive task: PRIO_DSQ holds fewer than four for each online CPU. */
  predicate RoomForInteractive(s: State)
    requires |s.places.dsqs| == DSQ_COUNT
  {
    |s.places.dsqs[PRIO_DSQ]| < 4 * |s.masks.online|
  }

  /** Where an enqueued task goes: a kernel thread bound to the CPU it is on to that CPU, with local_kthreads; an
      interactive task to PRIO_DSQ while there is room; any other to SHARED_DSQ. */
  function QueueFor(cfg: Config, s: State, p: Pid, taskCpu: nat): nat
    requires p in s.tasks && |s.places.dsqs| == DSQ_COUNT
  {
    if cfg.localKthreads && s.tasks[p].kthread && s.tasks[p].cpus == {taskCpu} then taskCpu
    else if s.tasks[p].ctx.interactive && RoomForInteractive(s) then PRIO_DSQ
    else SHARED_DSQ
  }

  lemma OneElement(s: set<nat>, x: nat)
    ensures |s| == 1 && x in s <==> s == {x}
  {
    if |s| == 1 && x in s {
      assert |s - {x}| == 0;
      assert s == {x};
    }
  }

  /** In every reachable state an enqueued task joins the queue it belongs to. */
  lemma EnqueueJoinsItsQueue(cfg: Config, s: State, p: Pid, taskCpu: nat) returns (i: nat)
    requires Inv(cfg, s) && CanStep(cfg, s, Enqueue(p, taskCpu))
    ensures JoinsQueue(cfg, s, EnqueueStep(cfg, s, p, taskCpu), p, QueueFor(cfg, s, p, taskCpu), i)
  {
    OneElement(s.tasks[p].cpus, taskCpu);
    i := DispatchVtimeJoins(cfg, s, p, EnqueueTarget(cfg, s, p, taskCpu), TaskVtime(cfg, s, p));
  }

  /** The state in which select_cpu looks for a CPU: a sync wake-up makes the task interactive while there is room. */
  ghost predicate Woken(s: State, t: State, p: Pid, sync: bool)
    requires p in s.tasks && |s.places.dsqs| == DSQ_COUNT
  {
    var ctx := s.tasks[p].ctx;
    t == s.(tasks := s.tasks[p := s.tasks[p].(ctx := ctx.(interactive :=
              ctx.interactive || (sync && RoomForInteractive(s))))])
  }

  lemma SyncWakes(cfg: Config, s: State, p: Pid, sync: bool)
    requires Inv(cfg, s) && p in s.tasks
    ensures Woken(s, if sync then SyncWakeup(s, p) else s, p, sync)
  {
    var t := if sync then SyncWakeup(s, p) else s;
    var ctx := s.tasks[p].ctx;
    assert s.tasks[p].(ctx := ctx.(interactive := ctx.interactive)) == s.tasks[p];
    assert s.tasks[p := s.tasks[p]] == s.tasks;
  }

  /** A woken task joins the queue of the CPU that was claimed for it, or is left to enqueue. */
  ghost predicate Selected(cfg: Config, s: State, t: State, p: Pid, cpu: int, i: nat)
    requires p in s.tasks && |s.places.dsqs| == DSQ_COUNT
  {
    if 0 <= cpu < MAX_CPUS then
      && JoinsQueue(cfg, s, t, p, cpu, i) && cpu in s.tasks[p].cpus && cpu in s.masks.idle
      && t.masks.idle == s.masks.idle - {cpu} && t.nrDirect == s.nrDirect + 1
    else
      && t.places == s.places.(loc := s.places.loc[p := Handover]) && t.tasks == s.tasks
      && t.masks.idle == s.masks.idle && t.nrDirect == s.nrDirect
  }

  lemma PlacingSelects(cfg: Config, s: State, p: Pid, cpu: int, masks: Masks) returns (i: nat)
    requires Shape(cfg, s) && Known(s, p) && cpu < MAX_CPUS && (cpu >= 0 ==> cpu in s.tasks[p].cpus)
    requires if cpu >= 0 then cpu in s.masks.idle && masks.idle == s.masks.idle - {cpu} else masks.idle == s.masks.idle
    ensures Selected(cfg, s, PlaceSelected(cfg, s, p, cpu, masks), p, cpu, i)
  {
    i := 0;
    if cpu >= 0 {
      i := DispatchVtimeJoins(cfg, s, p, cpu, TaskVtime(cfg, s, p));
    }
  }

  /** In every reachable state select_cpu puts the task into the queue of an idle CPU it may use and claims that CPU,
      or leaves it to enqueue; the CPU is what the search for an idle one comes up with. */
  lemma SelectUsesClaimedCpu(cfg: Config, s: State, p: Pid, prev: int, sync: bool, anySmt: int, anyIdle: int)
      returns (woken: State, cpu: int, i: nat)
    requires Inv(cfg, s) && CanStep(cfg, s, SelectCpu(p, prev, sync, anySmt, anyIdle))
    ensures Woken(s, woken, p, sync) && p in woken.tasks && |woken.places.dsqs| == DSQ_COUNT
    ensures cpu == PickIdle(cfg.topo, cfg.smtEnabled, s.masks, s.tasks[p].cpus, prev, anySmt, anyIdle).0
    ensures Selected(cfg, woken, SelectStep(cfg, s, p, prev, sync, anySmt, anyIdle), p, cpu, i)
  {
    var masks;
    cpu, masks := PickedCpu(cfg, s, p, prev, sync, anySmt, anyIdle);
    woken := if sync then SyncWakeup(s, p) else s;
    SyncWakes(cfg, s, p, sync);
    NoCpuBeyond(cfg, s, p, cpu);
    i := PlacingSelects(cfg, woken, p, cpu, masks);
  }

  lemma NoCpuBeyond(cfg: Config, s: State, p: Pid, cpu: int)
    requires Inv(cfg, s) && p in s.tasks && (cpu >= 0 ==> cpu in s.tasks[p].cpus)
    ensures cpu < MAX_CPUS
  {
  }

  // Counters

  datatype Kind = Direct | Kthread | Prio | Shared

  /** What kind of insertion puts a task into a queue. */
  function KindOf(e: Event, d: nat): Kind {
    if d == PRIO_DSQ then Prio else if d == SHARED_DSQ then Shared else if e.SelectCpu? then Direct else Kthread
  }

  function CounterOf(s: State, k: Kind): nat {
    match k
    case Direct => s.nrDirect
    case Kthread => s.nrKthread
    case Prio => s.nrPrio
    case Shared => s.nrShared
  }

  /** The tasks an event puts into queues by an insertion of the given kind. */
  ghost function NewlyQueued(s: State, e: Event, t: State, k: Kind): set<Pid> {
    set p | p in t.places.loc && t.places.loc[p].Queued? && !(p in s.places.loc && s.places.loc[p].Queued?)
            && KindOf(e, t.places.loc[p].dsq) == k
  }

  ghost function InsertionsOf(cfg: Config, s: State, es: seq<Event>, k: Kind): nat
    requires Inv(cfg, s) && IsRun(cfg, s, es)
  {
    if es == [] then 0
    else InsertionsOf(cfg, s, es[..|es| - 1], k) +
         |NewlyQueued(After(cfg, s, es[..|es| - 1]), es[|es| - 1], After(cfg, s, es), k)|
  }

  ghost predicate Counts(s: State, e: Event, t: State, k: Kind) {
    CounterOf(t, k) == CounterOf(s, k) + |NewlyQueued(s, e, t, k)|
  }

  lemma JoiningIsNew(s: State, e: Event, t: State, p: Pid, d: nat, k: Kind)
    requires t.places.loc == s.places.loc[p := Queued(d)] && !(p in s.places.loc && s.places.loc[p].Queued?)
    ensures NewlyQueued(s, e, t, k) == if KindOf(e, d) == k then {p} else {}
  {
  }

  lemma SelectCounts(cfg: Config, s: State, e: Event, k: Kind)
    requires Inv(cfg, s) && CanStep(cfg, s, e) && e.SelectCpu?
    ensures Counts(s, e, Step(cfg, s, e), k)
  {
    var cpu, masks := PickedCpu(cfg, s, e.p, e.prev, e.sync, e.anySmt, e.anyIdle);
    var t := Step(cfg, s, e);
    if cpu >= 0 {
      JoiningIsNew(s, e, t, e.p, cpu, k);
    } else {
      assert NewlyQueued(s, e, t, k) == {};
    }
  }

  lemma EnqueueCounts(cfg: Config, s: State, e: Event, k: Kind)
    requires Shape(cfg, s) && CanStep(cfg, s, e) && e.Enqueue?
    ensures Counts(s, e, Step(cfg, s, e), k)
  {
    JoiningIsNew(s, e, Step(cfg, s, e), e.p, EnqueueTarget(cfg, s, e.p, e.taskCpu), k);
  }

  lemma DispatchCountsNothing(cfg: Config, s: State, e: Event, k: Kind)
    requires Inv(cfg, s) && CanStep(cfg, s, e) && e.Dispatch?
    ensures Counts(s, e, Step(cfg, s, e), k)
  {
    DispatchIsWorkConserving(cfg, s, e.cpu, e.now);
    assert NewlyQueued(s, e, Step(cfg, s, e), k) == {};
  }

  lemma OthersCountNothing(cfg: Config, s: State, e: Event, k: Kind)
    requires Shape(cfg, s) && CanStep(cfg, s, e) && !e.SelectCpu? && !e.Enqueue? && !e.Dispatch?
    ensures Counts(s, e, Step(cfg, s, e), k)
  {
    assert NewlyQueued(s, e, Step(cfg, s, e), k) == {};
  }

  /** In every run each of the four counters is the number of insertions of its kind: nr_direct_dispatches those of
      select_cpu, nr_kthread_dispatches those of enqueue into the queue of a CPU, and the others those into
      PRIO_DSQ and SHARED_DSQ. */
  lemma {:induction false} EachCounterIsExact(cfg: Config, s: State, es: seq<Event>, k: Kind)
    requires Inv(cfg, s) && IsRun(cfg, s, es)
    ensures CounterOf(After(cfg, s, es), k) == CounterOf(s, k) + InsertionsOf(cfg, s, es, k)
  {
    if es == [] {
    } else {
      var front, e := es[..|es| - 1], es[|es| - 1];
      EachCounterIsExact(cfg, s, front, k);
      if e.SelectCpu? {
        SelectCounts(cfg, After(cfg, s, front), e, k);
      } else if e.Enqueue? {
        EnqueueCounts(cfg, After(cfg, s, front), e, k);
      } else if e.Dispatch? {
        DispatchCountsNothing(cfg, After(cfg, s, front), e, k);
      } else {
        OthersCountNothing(cfg, After(cfg, s, front), e, k);
      }
    }
  }

  // Running

  /** A task that starts to run keeps a slice of at most slice_ns, and a longer one is cut to that. */
  ghost predicate StartsToRun(cfg: Config, s: State, t: State, p: Pid)
    requires Known(s, p) && s.places.loc[p].Local?
  {
    && t.places.loc == s.places.loc[p := Running(s.places.loc[p].cpu)]
    && p in t.tasks && t.tasks == s.tasks[p := s.tasks[p].(slice := t.tasks[p].slice)]
    && t.tasks[p].slice <= s.tasks[p].slice && t.tasks[p].slice <= cfg.sliceNs
    && (t.tasks[p].slice < s.tasks[p].slice ==> t.tasks[p].slice == cfg.sliceNs)
  }

  lemma RunStarts(cfg: Config, s: State, p: Pid)
    requires Inv(cfg, s) && CanStep(cfg, s, Run(p))
    ensures StartsToRun(cfg, s, RunStep(cfg, s, p), p)
  {
    var l := Running(s.places.loc[p].cpu);
    assert s.places.loc[p := Handover][p := l] == s.places.loc[p := l];
  }

  ghost predicate SlicesCapped(cfg: Config, s: State) {
    forall p :: p in s.places.loc && s.places.loc[p].Running? && p in s.tasks ==> s.tasks[p].slice <= cfg.sliceNs
  }

  lemma SelectKeepsSlices(cfg: Config, s: State, e: Event)
    requires Inv(cfg, s) && CanStep(cfg, s, e) && e.SelectCpu? && SlicesCapped(cfg, s)
    ensures SlicesCapped(cfg, Step(cfg, s, e))
  {
    var cpu, masks := PickedCpu(cfg, s, e.p, e.prev, e.sync, e.anySmt, e.anyIdle);
  }

  lemma DispatchKeepsSlices(cfg: Config, s: State, e: Event)
    requires Inv(cfg, s) && CanStep(cfg, s, e) && e.Dispatch? && SlicesCapped(cfg, s)
    ensures SlicesCapped(cfg, Step(cfg, s, e))
  {
    DispatchIsWorkConserving(cfg, s, e.cpu, e.now);
  }

  lemma OthersKeepSlices(cfg: Config, s: State, e: Event)
    requires Inv(cfg, s) && CanStep(cfg, s, e) && !e.SelectCpu? && !e.Dispatch? && SlicesCapped(cfg, s)
    ensures SlicesCapped(cfg, Step(cfg, s, e))
  {
  }

  /** In every reachable state the slices of running tasks are at most slice_ns. */
  lemma {:induction false} RunningSlicesAreCapped(cfg: Config, s: State, es: seq<Event>)
    requires RunsFromStart(cfg, s, es)
    ensures SlicesCapped(cfg, After(cfg, s, es))
  {
    if es == [] {
    } else {
      var front, e := es[..|es| - 1], es[|es| - 1];
      RunningSlicesAreCapped(cfg, s, front);
      if e.SelectCpu? {
        SelectKeepsSlices(cfg, After(cfg, s, front), e);
      } else if e.Dispatch? {
        DispatchKeepsSlices(cfg, After(cfg, s, front), e);
      } else {
        OthersKeepSlices(cfg, After(cfg, s, front), e);
      }
    }
  }

  /** A task that stops keeps what was left of its slice, and is handed over to enqueue if it can still run. */
  lemma StopReleases(cfg: Config, s: State, e: Event)
    requires Inv(cfg, s) && CanStep(cfg, s, e) && e.Stop?
    ensures var t := Step(cfg, s, e);
            && t.places == s.places.(loc := s.places.loc[e.p := if e.runnable then Handover else Asleep])
            && e.p in t.tasks && t.tasks[e.p].slice == e.sliceLeft
            && t.tasks == s.tasks[e.p := t.tasks[e.p]]
  {
  }

  // What a task is

  /** What never changes of a task, as it was created, and the last mask it was given. */
  datatype Traits = Traits(weight: U64, kthread: bool, cpus: set<nat>)

  function TraitsOf(es: seq<Event>, p: Pid): Traits {
    if es == [] then Traits(0, false, {})
    else
      match es[|es| - 1]
      case InitTask(q, task) =>
        if q == p then Traits(task.weight, task.kthread, task.cpus) else TraitsOf(es[..|es| - 1], p)
      case SetMask(q, cpus) =>
        if q == p then TraitsOf(es[..|es| - 1], p).(cpus := cpus) else TraitsOf(es[..|es| - 1], p)
      case _ => TraitsOf(es[..|es| - 1], p)
  }

  ghost predicate HasTraits(s: State, p: Pid, x: Traits) {
    p in s.tasks ==> Traits(s.tasks[p].weight, s.tasks[p].kthread, s.tasks[p].cpus) == x
  }

  lemma SelectKeepsTraits(cfg: Config, s: State, e: Event, p: Pid, x: Traits)
    requires Inv(cfg, s) && CanStep(cfg, s, e) && e.SelectCpu? && HasTraits(s, p, x)
    ensures HasTraits(Step(cfg, s, e), p, x)
  {
    var cpu, masks := PickedCpu(cfg, s, e.p, e.prev, e.sync, e.anySmt, e.anyIdle);
  }

  lemma OthersKeepTraits(cfg: Config, s: State, e: Event, p: Pid, x: Traits)
    requires Inv(cfg, s) && CanStep(cfg, s, e) && HasTraits(s, p, x)
    requires !e.SelectCpu? && !((e.InitTask? || e.SetMask?) && e.p == p)
    ensures HasTraits(Step(cfg, s, e), p, x)
  {
  }

  /** In every run a task has the weight and the kind it was created with, and the last mask it was given. */
  lemma {:induction false} TraitsAreHistory(cfg: Config, s: State, es: seq<Event>, p: Pid)
    requires RunsFromStart(cfg, s, es)
    ensures HasTraits(After(cfg, s, es), p, TraitsOf(es, p))
  {
    if es == [] {
    } else {
      var front, e := es[..|es| - 1], es[|es| - 1];
      TraitsAreHistory(cfg, s, front, p);
      if e.SelectCpu? {
        SelectKeepsTraits(cfg, After(cfg, s, front), e, p, TraitsOf(front, p));
      } else if !((e.InitTask? || e.SetMask?) && e.p == p) {
        OthersKeepTraits(cfg, After(cfg, s, front), e, p, TraitsOf(front, p));
      }
    }
  }
}
