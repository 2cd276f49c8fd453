/** Properties of whole runs of the vruntime scheduler. */
module VruntimeRuns {
  import opened Words
  import opened Arithmetic
  import opened Ewma
  import opened Placement
  import opened IdleCpu
  import opened Vruntime
  import opened VruntimeInvariants
  import opened Starvation
  import opened Subsequences

  // Starvation

  function EntryOf(cfg: Config, t: State, cpu: nat, now: U64): Entry
    requires Shape(cfg, t) && cpu < cfg.topo.count
  {
    Entry(now, cpu, SourceOf(cfg, t, cpu, now), Ready(t, SHARED_DSQ, cpu), Ready(t, PRIO_DSQ, cpu), Ready(t, cpu, cpu))
  }

  ghost function LogIn(cfg: Config, t: State, e: Event): Log
    requires Shape(cfg, t) && CanStep(cfg, t, e)
  {
    if e.Dispatch? then [EntryOf(cfg, t, e.cpu, e.now)] else []
  }

  /** The dispatches of a run. */
  ghost function LogOf(cfg: Config, s: State, es: seq<Event>): Log
    requires Inv(cfg, s) && IsRun(cfg, s, es)
  {
    if es == [] then []
    else LogOf(cfg, s, es[..|es| - 1]) + LogIn(cfg, After(cfg, s, es[..|es| - 1]), es[|es| - 1])
  }

  lemma OverdueMeansLate(cfg: Config, ts: U64, now: U64)
    requires ValidConfig(cfg) && ts <= now < TWO63
    ensures Overdue(cfg, ts, now) <==> Due(cfg.starveThresh, ts, now)
  {
    BeforeIsLess(ts + cfg.starveThresh, now);
    assert Wrap(now) == now;
  }

  lemma EntryFollowsRule(cfg: Config, t: State, cpu: nat, now: U64)
    requires Inv(cfg, t) && CanStep(cfg, t, Dispatch(cpu, now))
    ensures FollowsRule(cfg.starveThresh, t.sharedTs, t.prioTs, EntryOf(cfg, t, cpu, now))
  {
    OverdueMeansLate(cfg, t.sharedTs, now);
    OverdueMeansLate(cfg, t.prioTs, now);
  }

  /** The starvation timestamps and the clock after one step. */
  lemma TimestampsAfterStep(cfg: Config, t: State, e: Event)
    requires Inv(cfg, t) && CanStep(cfg, t, e)
    ensures t.ktime <= Step(cfg, t, e).ktime
    ensures e.Dispatch? ==>
              var entry := EntryOf(cfg, t, e.cpu, e.now);
              && t.ktime <= e.now == Step(cfg, t, e).ktime
              && Step(cfg, t, e).sharedTs == (if Serves(entry, SHARED_DSQ) then e.now else t.sharedTs)
              && Step(cfg, t, e).prioTs == (if Serves(entry, PRIO_DSQ) then e.now else t.prioTs)
    ensures !e.Dispatch? ==> Step(cfg, t, e).sharedTs == t.sharedTs && Step(cfg, t, e).prioTs == t.prioTs
  {
    if e.SelectCpu? {
      assert e.sync ==> SyncWakeup(t, e.p).sharedTs == t.sharedTs;
    }
  }

  ghost predicate LogMatches(cfg: Config, s: State, log: Log, t: State) {
    && RuleLog(cfg.starveThresh, s.sharedTs, s.prioTs, log)
    && t.sharedTs == LastServed(log, SHARED_DSQ, s.sharedTs)
    && t.prioTs == LastServed(log, PRIO_DSQ, s.prioTs)
    && s.ktime <= t.ktime
    && forall i :: 0 <= i < |log| ==> log[i].time <= t.ktime
  }

  lemma LogStays(cfg: Config, s: State, log: Log, t: State, u: State)
    requires LogMatches(cfg, s, log, t) && t.ktime <= u.ktime && u.sharedTs == t.sharedTs && u.prioTs == t.prioTs
    ensures LogMatches(cfg, s, log, u)
  {
  }

  lemma LogAfterStep(cfg: Config, s: State, log: Log, t: State, e: Event)
    requires Inv(cfg, s) && Inv(cfg, t) && LogMatches(cfg, s, log, t) && CanStep(cfg, t, e)
    ensures LogMatches(cfg, s, log + LogIn(cfg, t, e), Step(cfg, t, e))
  {
    if e.Dispatch? {
      LogGrows(cfg, s, log, t, e.cpu, e.now);
    } else {
      TimestampsAfterStep(cfg, t, e);
      LogStays(cfg, s, log, t, Step(cfg, t, e));
      assert log + [] == log;
    }
  }

  lemma LogGrows(cfg: Config, s: State, log: Log, t: State, cpu: nat, now: U64)
    requires Inv(cfg, s) && Inv(cfg, t) && LogMatches(cfg, s, log, t) && CanStep(cfg, t, Dispatch(cpu, now))
    ensures LogMatches(cfg, s, log + [EntryOf(cfg, t, cpu, now)], DispatchStep(cfg, t, cpu, now))
  {
    EntryFollowsRule(cfg, t, cpu, now);
    TimestampsAfterStep(cfg, t, Dispatch(cpu, now));
    assert (log + [EntryOf(cfg, t, cpu, now)])[..|log|] == log;
    RuleLogGrows(cfg.starveThresh, s.sharedTs, s.prioTs, log, EntryOf(cfg, t, cpu, now));
  }

  /** In every run the starvation timestamps are the last times their queues were served, and every
      dispatch follows the rule, so the results of module Starvation hold of every run. */
  lemma {:induction false} LogFollowsRule(cfg: Config, s: State, es: seq<Event>)
    requires Inv(cfg, s) && IsRun(cfg, s, es)
    ensures LogMatches(cfg, s, LogOf(cfg, s, es), After(cfg, s, es))
  {
    if es == [] {
    } else {
      var front := es[..|es| - 1];
      LogFollowsRule(cfg, s, front);
      LogAfterStep(cfg, s, LogOf(cfg, s, front), After(cfg, s, front), es[|es| - 1]);
    }
  }

  /** A dispatch takes a task from the queue: the CPU gets the task the queue has first for it, and the
      timestamp of the queue is refreshed. */
  ghost predicate TakesFrom(cfg: Config, t: State, cpu: nat, now: U64, d: nat)
    requires Shape(cfg, t) && d < DSQ_COUNT && cpu < cfg.topo.count && Ready(t, d, cpu)
  {
    var p, u := NextTask(t, d, cpu), DispatchStep(cfg, t, cpu, now);
    && Is(t, p, Queued(d)) && p in t.tasks && cpu in t.tasks[p].cpus
    && u.places.loc == t.places.loc[p := Local(cpu)]
    && (d == SHARED_DSQ ==> u.sharedTs == now) && (d == PRIO_DSQ ==> u.prioTs == now)
  }

  lemma SourceIsTaken(cfg: Config, t: State, cpu: nat, now: U64, d: nat, forced: bool)
    requires Inv(cfg, t) && CanStep(cfg, t, Dispatch(cpu, now)) && SourceOf(cfg, t, cpu, now) == From(d, forced)
    ensures TakesFrom(cfg, t, cpu, now, d)
  {
    var p := ConsumedTask(t, d, cpu);
  }

  /** How long a queue has gone unserved in a run, up to a time. */
  ghost predicate OverdueInRun(cfg: Config, s: State, es: seq<Event>, d: nat, start: nat, now: nat)
    requires Inv(cfg, s) && IsRun(cfg, s, es)
  {
    cfg.starveThresh > 0 && LastServed(LogOf(cfg, s, es), d, start) + cfg.starveThresh < now
  }

  /** In every run, a dispatch that comes more than the threshold after the last service of SHARED_DSQ, and
      finds a task in it for its CPU, moves that task there. */
  lemma OverdueSharedIsTaken(cfg: Config, s: State, es: seq<Event>, cpu: nat, now: U64)
    requires Inv(cfg, s) && IsRun(cfg, s, es) && CanStep(cfg, After(cfg, s, es), Dispatch(cpu, now))
    requires OverdueInRun(cfg, s, es, SHARED_DSQ, s.sharedTs, now) && Ready(After(cfg, s, es), SHARED_DSQ, cpu)
    ensures TakesFrom(cfg, After(cfg, s, es), cpu, now, SHARED_DSQ)
  {
    var t := After(cfg, s, es);
    LogFollowsRule(cfg, s, es);
    OverdueMeansLate(cfg, t.sharedTs, now);
    SourceIsTaken(cfg, t, cpu, now, SHARED_DSQ, true);
  }

  /** One that comes more than the threshold after the last service of PRIO_DSQ, and finds a task in it, moves
      that one, unless SHARED_DSQ is overdue and has a task as well. */
  lemma OverduePrioIsTaken(cfg: Config, s: State, es: seq<Event>, cpu: nat, now: U64)
    requires Inv(cfg, s) && IsRun(cfg, s, es) && CanStep(cfg, After(cfg, s, es), Dispatch(cpu, now))
    requires OverdueInRun(cfg, s, es, PRIO_DSQ, s.prioTs, now) && Ready(After(cfg, s, es), PRIO_DSQ, cpu)
    ensures if OverdueInRun(cfg, s, es, SHARED_DSQ, s.sharedTs, now) && Ready(After(cfg, s, es), SHARED_DSQ, cpu)
            then TakesFrom(cfg, After(cfg, s, es), cpu, now, SHARED_DSQ)
            else TakesFrom(cfg, After(cfg, s, es), cpu, now, PRIO_DSQ)
  {
    var t := After(cfg, s, es);
    LogFollowsRule(cfg, s, es);
    OverdueMeansLate(cfg, t.sharedTs, now);
    OverdueMeansLate(cfg, t.prioTs, now);
    match SourceOf(cfg, t, cpu, now)
    case From(d, forced) => SourceIsTaken(cfg, t, cpu, now, d, forced);
  }

  // Diversion in runs

  /** The queue of a CPU holds only tasks it may run. */
  lemma OwnQueueIsReady(cfg: Config, t: State, cpu: nat)
    requires Inv(cfg, t) && cpu < cfg.topo.count
    ensures Ready(t, cpu, cpu) <==> t.places.dsqs[cpu] != []
  {
    if t.places.dsqs[cpu] != [] {
      var p := t.places.dsqs[cpu][0];
      CountIsMembership(t.places);
      assert p in t.places.dsqs[cpu] && Is(t, p, Queued(cpu));
    }
  }

  /** From the k-th event on, each dispatch of the CPU finds its own queue non-empty. */
  ghost predicate OwnQueueFilled(cfg: Config, s: State, es: seq<Event>, k: nat, cpu: nat)
    requires Inv(cfg, s) && IsRun(cfg, s, es)
  {
    |es| <= k || (
      && OwnQueueFilled(cfg, s, es[..|es| - 1], k, cpu)
      && (DispatchOn(es[|es| - 1], cpu) && cpu < MAX_CPUS ==>
            After(cfg, s, es[..|es| - 1]).places.dsqs[cpu] != []))
  }

  predicate DispatchOn(e: Event, cpu: nat) {
    e.Dispatch? && e.cpu == cpu
  }

  predicate AllOwnReady(log: Log, a: nat, cpu: nat) {
    forall i :: a <= i < |log| && log[i].cpu == cpu ==> log[i].ownReady
  }

  lemma EntryIsOwnReady(cfg: Config, t: State, e: Event, cpu: nat)
    requires Inv(cfg, t) && CanStep(cfg, t, e) && (DispatchOn(e, cpu) ==> t.places.dsqs[cpu] != [])
    ensures AllOwnReady(LogIn(cfg, t, e), 0, cpu)
  {
    if DispatchOn(e, cpu) {
      OwnQueueIsReady(cfg, t, cpu);
    }
  }

  lemma AllOwnReadyGrows(log: Log, more: Log, a: nat, cpu: nat)
    requires a <= |log| && AllOwnReady(log, a, cpu) && AllOwnReady(more, 0, cpu)
    ensures AllOwnReady(log + more, a, cpu)
  {
    forall i | a <= i < |log + more| && (log + more)[i].cpu == cpu
      ensures (log + more)[i].ownReady
    {
      if i >= |log| {
        assert more[i - |log|] == (log + more)[i];
      }
    }
  }

  /** Then so do the entries of the log from there on. */
  lemma {:induction false} FilledMeansOwnReady(cfg: Config, s: State, es: seq<Event>, k: nat, cpu: nat)
    requires Inv(cfg, s) && IsRun(cfg, s, es) && k <= |es| && cpu < MAX_CPUS && OwnQueueFilled(cfg, s, es, k, cpu)
    ensures IsRun(cfg, s, es[..k])
    ensures |LogOf(cfg, s, es[..k])| <= |LogOf(cfg, s, es)|
    ensures AllOwnReady(LogOf(cfg, s, es), |LogOf(cfg, s, es[..k])|, cpu)
  {
    if k == |es| {
      assert es[..k] == es;
    } else {
      var front := es[..|es| - 1];
      PrefixOfFront(es, k);
      FilledMeansOwnReady(cfg, s, front, k, cpu);
      EntryIsOwnReady(cfg, After(cfg, s, front), es[|es| - 1], cpu);
      AllOwnReadyGrows(LogOf(cfg, s, front), LogIn(cfg, After(cfg, s, front), es[|es| - 1]),
                       |LogOf(cfg, s, es[..k])|, cpu);
    }
  }

  /** The entries from the a-th on span a time of at most `w`. */
  predicate Spans(log: Log, a: nat, w: nat) {
    a < |log| && log[|log| - 1].time - log[a].time <= w
  }

  /** Of the dispatches of a CPU among them, all but 2 * (1 + w / (threshold + 1)) took from its own queue. */
  predicate MostlyOwn(thresh: nat, log: Log, cpu: nat, a: nat, w: nat) {
    a <= |log| && OwnCount(log, cpu, a, |log|) >= CpuCount(log, cpu, a, |log|) - 2 * Quota(w, thresh)
  }

  lemma ReadyLogIsMostlyOwn(cfg: Config, s: State, log: Log, t: State, cpu: nat, a: nat, w: nat)
    requires LogMatches(cfg, s, log, t) && AllOwnReady(log, a, cpu) && Spans(log, a, w)
    ensures MostlyOwn(cfg.starveThresh, log, cpu, a, w)
  {
    DiversionIsBounded(cfg.starveThresh, s.sharedTs, s.prioTs, log, cpu, a, |log|, w);
  }

  /** In every run: from the k-th event on, a CPU whose own queue is never empty when it dispatches takes mostly
      from that queue. */
  lemma DiversionIsBoundedInRuns(cfg: Config, s: State, es: seq<Event>, k: nat, cpu: nat, w: nat)
    requires Inv(cfg, s) && IsRun(cfg, s, es) && k <= |es| && cpu < MAX_CPUS && OwnQueueFilled(cfg, s, es, k, cpu)
    requires IsRun(cfg, s, es[..k]) && Spans(LogOf(cfg, s, es), |LogOf(cfg, s, es[..k])|, w)
    ensures MostlyOwn(cfg.starveThresh, LogOf(cfg, s, es), cpu, |LogOf(cfg, s, es[..k])|, w)
  {
    LogFollowsRule(cfg, s, es);
    FilledMeansOwnReady(cfg, s, es, k, cpu);
    ReadyLogIsMostlyOwn(cfg, s, LogOf(cfg, s, es), After(cfg, s, es), cpu, |LogOf(cfg, s, es[..k])|, w);
  }

  // Work conservation

  /** The offline loop looks at every CPU other than its own exactly once, and never at its own. */
  lemma LoopVisitsOthersOnce(cfg: Config, cpu: nat, c: nat)
    requires cpu < cfg.topo.count && c < cfg.topo.count
    ensures c != cpu <==> exists k :: 1 <= k < cfg.topo.count && LoopCpu(cfg, cpu, k) == c
    ensures forall k, j | 1 <= k < cfg.topo.count && 1 <= j < cfg.topo.count ::
              LoopCpu(cfg, cpu, k) == LoopCpu(cfg, cpu, j) ==> k == j
  {
    var n := cfg.topo.count;
    forall k: nat | k < n
      ensures LoopCpu(cfg, cpu, k) == if cpu + k < n then cpu + k else cpu + k - n
    {
      ModOnce(cpu + k, n);
    }
    if c != cpu {
      var k := if c > cpu then c - cpu else c + n - cpu;
      assert LoopCpu(cfg, cpu, k) == c;
    }
  }

  lemma NextLoopCpu(cfg: Config, cpu: nat, k: nat)
    requires cpu < cfg.topo.count && k + 1 < cfg.topo.count
    ensures (LoopCpu(cfg, cpu, k) + 1) % cfg.topo.count == LoopCpu(cfg, cpu, k + 1)
  {
    var n := cfg.topo.count;
    ModOnce(cpu + k, n);
    ModOnce(LoopCpu(cfg, cpu, k) + 1, n);
    ModOnce(cpu + k + 1, n);
  }

  /** The k-th CPU the loop looks at is offline and has a task for this one. */
  predicate OfflineAndReady(cfg: Config, s: State, cpu: nat, k: nat)
    requires 1 <= cfg.topo.count <= |s.places.dsqs|
  {
    LoopCpu(cfg, cpu, k) in s.offline && Ready(s, LoopCpu(cfg, cpu, k), cpu)
  }

  lemma {:induction false} OfflineLoopFinds(cfg: Config, s: State, cpu: nat, k: nat)
    requires 1 <= cfg.topo.count <= |s.places.dsqs|
    ensures OfflineSource(cfg, s, cpu, k) < cfg.topo.count <==>
              exists j :: k <= j < cfg.topo.count && OfflineAndReady(cfg, s, cpu, j)
    decreases cfg.topo.count - k
  {
    if k < cfg.topo.count {
      OfflineLoopFinds(cfg, s, cpu, k + 1);
      if OfflineAndReady(cfg, s, cpu, k) {
      } else if j :| k <= j < cfg.topo.count && OfflineAndReady(cfg, s, cpu, j) {
        assert j > k;
      }
    }
  }

  /** A queue this CPU may take from: its own, those of offline CPUs, the priority and the shared one. */
  predicate Reachable(s: State, cpu: nat, d: nat) {
    d == cpu || d == PRIO_DSQ || d == SHARED_DSQ || d in s.offline
  }

  /** So the loop finds the queue of any offline CPU, but for its own, that has a task for this CPU. */
  lemma OfflineLoopMissesNone(cfg: Config, s: State, cpu: nat, c: nat)
    requires 1 <= cfg.topo.count <= |s.places.dsqs| && cpu < cfg.topo.count && c < cfg.topo.count
    requires c != cpu && c in s.offline && Ready(s, c, cpu)
    ensures OfflineSource(cfg, s, cpu, 1) < cfg.topo.count
  {
    LoopVisitsOthersOnce(cfg, cpu, c);
    var k :| 1 <= k < cfg.topo.count && LoopCpu(cfg, cpu, k) == c;
    assert OfflineAndReady(cfg, s, cpu, k);
    OfflineLoopFinds(cfg, s, cpu, 1);
  }

  lemma NowhereMeansNothingReachable(cfg: Config, s: State, cpu: nat, now: U64)
    requires Inv(cfg, s) && CanStep(cfg, s, Dispatch(cpu, now))
    ensures SourceOf(cfg, s, cpu, now) == Nowhere
            <==> forall d :: 0 <= d < DSQ_COUNT && Reachable(s, cpu, d) ==> !Ready(s, d, cpu)
    ensures SourceOf(cfg, s, cpu, now).From? ==> Reachable(s, cpu, SourceOf(cfg, s, cpu, now).dsq)
  {
    if c :| c in s.offline && c < cfg.topo.count && c != cpu && Ready(s, c, cpu) {
      OfflineLoopMissesNone(cfg, s, cpu, c);
    }
  }

  /** democracy_dispatch is work conserving: it moves a task exactly when some reachable queue holds one
      the CPU may run; then it moves that one task, to the CPU's local queue, and nothing else moves. */
  lemma DispatchIsWorkConserving(cfg: Config, s: State, cpu: nat, now: U64)
    requires Inv(cfg, s) && CanStep(cfg, s, Dispatch(cpu, now))
    ensures SourceOf(cfg, s, cpu, now) == Nowhere
            <==> forall d :: 0 <= d < DSQ_COUNT && Reachable(s, cpu, d) ==> !Ready(s, d, cpu)
    ensures match SourceOf(cfg, s, cpu, now)
            case Nowhere => DispatchStep(cfg, s, cpu, now) == s.(ktime := now)
            case From(d, _) =>
              var p := NextTask(s, d, cpu);
              && Reachable(s, cpu, d) && Is(s, p, Queued(d)) && p in s.tasks && cpu in s.tasks[p].cpus
              && DispatchStep(cfg, s, cpu, now).places.loc == s.places.loc[p := Local(cpu)]
  {
    NowhereMeansNothingReachable(cfg, s, cpu, now);
    match SourceOf(cfg, s, cpu, now)
    case Nowhere =>
    case From(d, _) => var p := ConsumedTask(s, d, cpu);
  }

  /** An idle CPU that select_cpu claims is never lost: the task goes to its queue. If none is claimed
      the task is left to enqueue. */
  lemma ClaimedCpuIsUsed(cfg: Config, s: State, p: Pid, prev: int, sync: bool, anySmt: int, anyIdle: int)
    requires Inv(cfg, s) && CanStep(cfg, s, SelectCpu(p, prev, sync, anySmt, anyIdle))
    ensures var t := SelectStep(cfg, s, p, prev, sync, anySmt, anyIdle);
            if t.places.loc[p].Queued?
            then var cpu := t.places.loc[p].dsq;
                 cpu in s.masks.idle && cpu in s.tasks[p].cpus && t.masks.idle == s.masks.idle - {cpu} &&
                 t.nrDirect == s.nrDirect + 1
            else t.places.loc[p] == Handover && t.masks.idle == s.masks.idle && t.nrDirect == s.nrDirect
  {
    var cpu, masks := PickedCpu(cfg, s, p, prev, sync, anySmt, anyIdle);
  }

  // Dispatch counters

  ghost function QueuedIn(loc: map<Pid, Loc>): set<Pid> {
    set p | p in loc && loc[p].Queued?
  }

  /** The tasks a run has put into dispatch queues, counted with repetition. */
  ghost function Insertions(cfg: Config, s: State, es: seq<Event>): nat
    requires Inv(cfg, s) && IsRun(cfg, s, es)
  {
    if es == [] then 0
    else Insertions(cfg, s, es[..|es| - 1]) +
         |QueuedIn(After(cfg, s, es).places.loc) - QueuedIn(After(cfg, s, es[..|es| - 1]).places.loc)|
  }

  function CountedDispatches(s: State): nat {
    s.nrDirect + s.nrKthread + s.nrPrio + s.nrShared
  }

  lemma PlaceSelectedCounts(cfg: Config, s: State, p: Pid, cpu: int, masks: Masks)
    requires Shape(cfg, s) && Is(s, p, Asleep) && Known(s, p)
    requires cpu >= 0 ==> cpu < MAX_CPUS && cpu in s.tasks[p].cpus
    ensures var t := PlaceSelected(cfg, s, p, cpu, masks);
            CountedDispatches(t) == CountedDispatches(s) + |QueuedIn(t.places.loc) - QueuedIn(s.places.loc)|
  {
    var t := PlaceSelected(cfg, s, p, cpu, masks);
    assert t.places.loc == s.places.loc[p := if cpu >= 0 then Queued(cpu) else Handover];
    assert QueuedIn(t.places.loc) - QueuedIn(s.places.loc) == if cpu >= 0 then {p} else {};
  }

  lemma SelectCounts(cfg: Config, s: State, e: Event)
    requires Inv(cfg, s) && CanStep(cfg, s, e) && e.SelectCpu?
    ensures var t := Step(cfg, s, e);
            CountedDispatches(t) == CountedDispatches(s) + |QueuedIn(t.places.loc) - QueuedIn(s.places.loc)|
  {
    var cpu, masks := PickedCpu(cfg, s, e.p, e.prev, e.sync, e.anySmt, e.anyIdle);
    PlaceSelectedCounts(cfg, if e.sync then SyncWakeup(s, e.p) else s, e.p, cpu, masks);
  }

  lemma EnqueueCounts(cfg: Config, s: State, e: Event)
    requires Shape(cfg, s) && CanStep(cfg, s, e) && e.Enqueue?
    ensures var t := Step(cfg, s, e);
            CountedDispatches(t) == CountedDispatches(s) + |QueuedIn(t.places.loc) - QueuedIn(s.places.loc)|
  {
    var t := Step(cfg, s, e);
    assert t.places.loc == s.places.loc[e.p := Queued(EnqueueTarget(cfg, s, e.p, e.taskCpu))];
    assert QueuedIn(t.places.loc) - QueuedIn(s.places.loc) == {e.p};
  }

  lemma OtherCounts(cfg: Config, s: State, e: Event)
    requires Shape(cfg, s) && CanStep(cfg, s, e) && !e.SelectCpu? && !e.Enqueue? && !e.Dispatch?
    ensures QueuedIn(Step(cfg, s, e).places.loc) - QueuedIn(s.places.loc) == {}
    ensures CountedDispatches(Step(cfg, s, e)) == CountedDispatches(s)
  {
  }

  lemma DispatchCounts(cfg: Config, s: State, e: Event)
    requires Inv(cfg, s) && CanStep(cfg, s, e) && e.Dispatch?
    ensures QueuedIn(Step(cfg, s, e).places.loc) - QueuedIn(s.places.loc) == {}
    ensures CountedDispatches(Step(cfg, s, e)) == CountedDispatches(s)
  {
    DispatchIsWorkConserving(cfg, s, e.cpu, e.now);
  }

  lemma StepCounts(cfg: Config, s: State, e: Event)
    requires Inv(cfg, s) && CanStep(cfg, s, e)
    ensures var t := Step(cfg, s, e);
            CountedDispatches(t) == CountedDispatches(s) + |QueuedIn(t.places.loc) - QueuedIn(s.places.loc)|
  {
    if e.SelectCpu? {
      SelectCounts(cfg, s, e);
    } else if e.Enqueue? {
      EnqueueCounts(cfg, s, e);
    } else if e.Dispatch? {
      DispatchCounts(cfg, s, e);
    } else {
      OtherCounts(cfg, s, e);
    }
  }

  /** The four dispatch counters together count every insertion into a queue. */
  lemma {:induction false} CountersCountInsertions(cfg: Config, s: State, es: seq<Event>)
    requires Inv(cfg, s) && IsRun(cfg, s, es)
    ensures CountedDispatches(After(cfg, s, es)) == CountedDispatches(s) + Insertions(cfg, s, es)
  {
    if es == [] {
    } else {
      CountersCountInsertions(cfg, s, es[..|es| - 1]);
      StepCounts(cfg, After(cfg, s, es[..|es| - 1]), es[|es| - 1]);
    }
  }

  // Hotplug

  /** Whether the last hotplug event of a CPU in the run was an offline event. */
  function LastWentOffline(es: seq<Event>, c: nat): bool {
    if es == [] then false
    else
      match es[|es| - 1]
      case CpuOffline(d) => d == c || LastWentOffline(es[..|es| - 1], c)
      case CpuOnline(d) => d != c && LastWentOffline(es[..|es| - 1], c)
      case _ => LastWentOffline(es[..|es| - 1], c)
  }

  lemma OfflineAfterStep(cfg: Config, s: State, e: Event, c: nat)
    requires Inv(cfg, s) && CanStep(cfg, s, e)
    ensures c in Step(cfg, s, e).offline <==>
              if e.CpuOffline? && e.c == c then true else if e.CpuOnline? && e.c == c then false else c in s.offline
  {
  }

  /** offline_cpumask is exactly the set of CPUs whose last hotplug event was offline; it is disjoint
      from the online CPUs, which nr_online_cpus counts. */
  lemma {:induction false} OfflineMaskIsHistory(cfg: Config, s: State, es: seq<Event>, c: nat)
    requires RunsFromStart(cfg, s, es)
    ensures var t := After(cfg, s, es);
            && (c in t.offline <==> LastWentOffline(es, c))
            && !(c in t.offline && c in t.masks.online) && t.nrOnline == |t.masks.online|
  {
    if es == [] {
    } else {
      OfflineMaskIsHistory(cfg, s, es[..|es| - 1], c);
      OfflineAfterStep(cfg, After(cfg, s, es[..|es| - 1]), es[|es| - 1], c);
    }
  }

  /** The largest number of online CPUs so far. */
  ghost function PeakOnline(cfg: Config, s: State, es: seq<Event>): int
    requires Inv(cfg, s) && IsRun(cfg, s, es)
  {
    if es == [] then s.nrOnline
    else Max(PeakOnline(cfg, s, es[..|es| - 1]), After(cfg, s, es).nrOnline)
  }

  lemma {:induction false} PeakIsAtLeastNow(cfg: Config, s: State, es: seq<Event>)
    requires Inv(cfg, s) && IsRun(cfg, s, es)
    ensures After(cfg, s, es).nrOnline <= PeakOnline(cfg, s, es)
  {
  }

  function PrioLength(s: State): nat {
    if PRIO_DSQ < |s.places.dsqs| then |s.places.dsqs[PRIO_DSQ]| else 0
  }

  lemma EnqueueKeepsPrioCap(cfg: Config, s: State, p: Pid, taskCpu: nat, cap: int)
    requires Shape(cfg, s) && Known(s, p) && taskCpu < MAX_CPUS && PrioLength(s) <= 4 * cap && s.nrOnline <= cap
    ensures PrioLength(EnqueueStep(cfg, s, p, taskCpu)) <= 4 * cap
  {
  }

  lemma DispatchKeepsPrioCap(cfg: Config, s: State, cpu: nat, now: U64)
    requires Inv(cfg, s) && cpu < cfg.topo.count
    ensures PrioLength(DispatchStep(cfg, s, cpu, now)) <= PrioLength(s)
  {
    match SourceOf(cfg, s, cpu, now)
    case Nowhere =>
    case From(d, _) =>
      var p := ConsumedTask(s, d, cpu);
      WithoutCounts(s.places.dsqs[d], p);
  }

  lemma SelectKeepsPrio(cfg: Config, s: State, e: Event)
    requires Inv(cfg, s) && CanStep(cfg, s, e) && e.SelectCpu?
    ensures PrioLength(Step(cfg, s, e)) == PrioLength(s)
  {
    var cpu, masks := PickedCpu(cfg, s, e.p, e.prev, e.sync, e.anySmt, e.anyIdle);
  }

  lemma StepKeepsPrioCap(cfg: Config, s: State, e: Event, cap: int)
    requires Inv(cfg, s) && CanStep(cfg, s, e) && PrioLength(s) <= 4 * cap && s.nrOnline <= cap
    ensures PrioLength(Step(cfg, s, e)) <= 4 * cap
  {
    match e
    case SelectCpu(_, _, _, _, _) => SelectKeepsPrio(cfg, s, e);
    case Enqueue(p, taskCpu) => EnqueueKeepsPrioCap(cfg, s, p, taskCpu, cap);
    case Dispatch(cpu, now) => DispatchKeepsPrioCap(cfg, s, cpu, now);
    case Dequeue(p) =>
      if s.places.loc[p].Queued? {
        WithoutCounts(s.places.dsqs[s.places.loc[p].dsq], p);
      }
    case _ =>
  }

  /** PRIO_DSQ never holds more than four tasks for each CPU of the largest online set so far. */
  lemma {:induction false} PrioIsCapped(cfg: Config, s: State, es: seq<Event>)
    requires RunsFromStart(cfg, s, es)
    ensures |After(cfg, s, es).places.dsqs[PRIO_DSQ]| <= 4 * PeakOnline(cfg, s, es)
  {
    if es == [] {
    } else {
      var front := es[..|es| - 1];
      PrioIsCapped(cfg, s, front);
      PeakIsAtLeastNow(cfg, s, front);
      StepKeepsPrioCap(cfg, After(cfg, s, front), es[|es| - 1], PeakOnline(cfg, s, front));
    }
  }

  // Interactivity

  datatype Sample = Sample(delta: U64, rate: U64)

  /** The samples taken of a task's voluntary context switches in a run. */
  ghost function SamplesOf(cfg: Config, s: State, es: seq<Event>, p: Pid): seq<Sample>
    requires Inv(cfg, s) && IsRun(cfg, s, es)
  {
    if es == [] then []
    else SamplesOf(cfg, s, es[..|es| - 1], p) + SampleIn(cfg, After(cfg, s, es[..|es| - 1]), es[|es| - 1], p)
  }

  ghost function SampleIn(cfg: Config, t: State, e: Event, p: Pid): seq<Sample>
    requires Shape(cfg, t) && CanStep(cfg, t, e)
  {
    if e.Stop? && e.p == p && Sampled(cfg, t.tasks[p].ctx, e.now)
    then [Sample(Delta(t.tasks[p].ctx, e.nvcsw), Rate(t.tasks[p].ctx, e.now, e.nvcsw))]
    else []
  }

  function Rates(samples: seq<Sample>): (r: seq<U64>)
    ensures |r| == |samples| && forall i :: 0 <= i < |r| ==> r[i] == samples[i].rate
  {
    seq(|samples|, i requires 0 <= i < |samples| => samples[i].rate)
  }

  function TotalDelta(samples: seq<Sample>): nat {
    if samples == [] then 0 else TotalDelta(samples[..|samples| - 1]) + samples[|samples| - 1].delta
  }

  /** What the samples of a task say about its context. */
  ghost predicate CtxFromSamples(c: Ctx, samples: seq<Sample>) {
    && c.avgNvcsw == Average(0, Rates(samples))
    && c.nvcsw == TotalDelta(samples)
    && forall i :: 0 <= i < |samples| ==> samples[i].rate <= samples[i].delta
  }

  lemma RateAtMostDelta(c: Ctx, now: U64, nvcsw: U64)
    requires AsSigned(Wrap(now - c.nvcswTs)) > NSEC_PER_SEC
    ensures Rate(c, now, nvcsw) <= Delta(c, nvcsw)
  {
    var delta, dt := Delta(c, nvcsw), AsSigned(Wrap(now - c.nvcswTs));
    var product := delta * NSEC_PER_SEC;
    assert Wrap(product) <= product;
    DivideDown(Wrap(product), delta, dt);
  }

  lemma DivideDown(x: nat, delta: nat, dt: nat)
    requires x <= delta * NSEC_PER_SEC && dt > NSEC_PER_SEC
    ensures x / dt <= delta
  {
    var q := x / dt;
    assert q * dt <= x;
    MulMonotone(NSEC_PER_SEC, dt, q);
  }

  lemma SampleExtends(cfg: Config, c: Ctx, samples: seq<Sample>, now: U64, nvcsw: U64, rate: U64)
    requires CtxFromSamples(c, samples) && c.nvcsw <= nvcsw && rate <= Delta(c, nvcsw)
    ensures CtxFromSamples(WithRate(cfg, c, now, nvcsw, rate), samples + [Sample(Delta(c, nvcsw), rate)])
  {
    var longer := samples + [Sample(Delta(c, nvcsw), rate)];
    assert longer[..|samples|] == samples;
    assert Rates(longer)[..|samples|] == Rates(samples);
    assert Delta(c, nvcsw) == nvcsw - c.nvcsw;
  }

  /** The parts of a context that samples determine are the same; the task may have become interactive. */
  predicate SameSamples(c: Ctx, d: Ctx) {
    d.avgNvcsw == c.avgNvcsw && d.nvcsw == c.nvcsw && (c.interactive ==> d.interactive)
  }

  lemma SelectKeepsSamples(cfg: Config, t: State, e: Event, p: Pid)
    requires Inv(cfg, t) && CanStep(cfg, t, e) && p in t.tasks && e.SelectCpu?
    ensures p in Step(cfg, t, e).tasks && SameSamples(t.tasks[p].ctx, Step(cfg, t, e).tasks[p].ctx)
  {
    var cpu, masks := PickedCpu(cfg, t, e.p, e.prev, e.sync, e.anySmt, e.anyIdle);
  }

  lemma OthersKeepSamples(cfg: Config, t: State, e: Event, p: Pid)
    requires Shape(cfg, t) && CanStep(cfg, t, e) && p in t.tasks && !e.SelectCpu? && !e.Stop?
    ensures p in Step(cfg, t, e).tasks && SameSamples(t.tasks[p].ctx, Step(cfg, t, e).tasks[p].ctx)
  {
  }

  /** They change only when a sample is taken. */
  lemma CtxAfterStep(cfg: Config, t: State, e: Event, p: Pid)
    requires Inv(cfg, t) && CanStep(cfg, t, e) && p in t.tasks
    ensures p in Step(cfg, t, e).tasks
    ensures SampleIn(cfg, t, e, p) == [] ==> SameSamples(t.tasks[p].ctx, Step(cfg, t, e).tasks[p].ctx)
    ensures SampleIn(cfg, t, e, p) != [] ==>
              Step(cfg, t, e).tasks[p].ctx == Reclassify(cfg, t.tasks[p].ctx, e.now, e.nvcsw)
  {
    if e.SelectCpu? {
      SelectKeepsSamples(cfg, t, e, p);
    } else if !e.Stop? {
      OthersKeepSamples(cfg, t, e, p);
    }
  }

  /** What the samples of a task say in a state; a task that does not exist has none. */
  ghost predicate SamplesFit(t: State, p: Pid, samples: seq<Sample>) {
    if p in t.tasks then CtxFromSamples(t.tasks[p].ctx, samples) else samples == []
  }

  lemma SamplesFitAfterStep(cfg: Config, t: State, e: Event, p: Pid, samples: seq<Sample>)
    requires Inv(cfg, t) && CanStep(cfg, t, e) && SamplesFit(t, p, samples)
    ensures SamplesFit(Step(cfg, t, e), p, samples + SampleIn(cfg, t, e, p))
  {
    assert samples + [] == samples;
    if p in t.tasks {
      CtxAfterStep(cfg, t, e, p);
      if SampleIn(cfg, t, e, p) != [] {
        var c := t.tasks[p].ctx;
        RateAtMostDelta(c, e.now, e.nvcsw);
        SampleExtends(cfg, c, samples, e.now, e.nvcsw, Rate(c, e.now, e.nvcsw));
      }
    } else if p in Step(cfg, t, e).tasks {
      assert e.InitTask?;
    }
  }

  /** Over every run: the sampled deltas of a task add up to its context switches at the last sample, so
      none is lost or counted twice; no rate exceeds its delta; and its average is the moving average of
      the rates, to which the results of module Ewma apply. */
  lemma {:induction false} SamplesTelescope(cfg: Config, s: State, es: seq<Event>, p: Pid)
    requires RunsFromStart(cfg, s, es)
    ensures SamplesFit(After(cfg, s, es), p, SamplesOf(cfg, s, es, p))
  {
    if es == [] {
    } else {
      SamplesTelescope(cfg, s, es[..|es| - 1], p);
      SamplesFitAfterStep(cfg, After(cfg, s, es[..|es| - 1]), es[|es| - 1], p, SamplesOf(cfg, s, es[..|es| - 1], p));
    }
  }

  lemma AverageZeroMeansLowRates(c: Ctx, samples: seq<Sample>)
    requires CtxFromSamples(c, samples)
    ensures c.avgNvcsw == 0 <==> forall x :: x in samples ==> x.rate < 4
  {
    AverageIsZeroIff(0, Rates(samples));
    if c.avgNvcsw == 0 {
      forall x | x in samples
        ensures x.rate < 4
      {
        var i :| 0 <= i < |samples| && samples[i] == x;
        assert Rates(samples)[i] < 4;
      }
    } else {
      var i :| 0 <= i < |samples| && Rates(samples)[i] >= 4;
      assert samples[i] in samples;
    }
  }

  /** A step takes the interactive flag from a task exactly when it samples it and every rate ever
      sampled of it, this one included, is below 4. A task whose average was ever positive is never
      demoted again. */
  lemma DemotedOnlyIfNeverSwitching(cfg: Config, s: State, es: seq<Event>, t: State, e: Event, p: Pid)
    requires RunsFromStart(cfg, s, es) && t == After(cfg, s, es)
    requires CanStep(cfg, t, e) && p in t.tasks && t.tasks[p].ctx.interactive
    ensures p in Step(cfg, t, e).tasks
    ensures !Step(cfg, t, e).tasks[p].ctx.interactive <==>
              && SampleIn(cfg, t, e, p) != []
              && forall x :: x in SamplesOf(cfg, s, es, p) + SampleIn(cfg, t, e, p) ==> x.rate < 4
  {
    SamplesTelescope(cfg, s, es, p);
    DemotionInState(cfg, t, e, p, SamplesOf(cfg, s, es, p));
  }

  lemma DemotionInState(cfg: Config, t: State, e: Event, p: Pid, samples: seq<Sample>)
    requires Inv(cfg, t) && CanStep(cfg, t, e) && p in t.tasks && t.tasks[p].ctx.interactive
    requires SamplesFit(t, p, samples)
    ensures p in Step(cfg, t, e).tasks
    ensures !Step(cfg, t, e).tasks[p].ctx.interactive <==>
              SampleIn(cfg, t, e, p) != [] && forall x :: x in samples + SampleIn(cfg, t, e, p) ==> x.rate < 4
  {
    CtxAfterStep(cfg, t, e, p);
    SamplesFitAfterStep(cfg, t, e, p, samples);
    if SampleIn(cfg, t, e, p) != [] {
      AverageZeroMeansLowRates(Step(cfg, t, e).tasks[p].ctx, samples + SampleIn(cfg, t, e, p));
    }
  }

  /** The live average of a task never drifts 3 or more from the exact rational average of its rates. */
  lemma LiveAverageTracksExact(cfg: Config, s: State, es: seq<Event>, p: Pid)
    requires RunsFromStart(cfg, s, es) && p in After(cfg, s, es).tasks
    ensures var avg := After(cfg, s, es).tasks[p].ctx.avgNvcsw as real;
            -3.0 < avg - ExactAverage(0, Rates(SamplesOf(cfg, s, es, p))) < 3.0
  {
    SamplesTelescope(cfg, s, es, p);
    AverageTracksExact(0, Rates(SamplesOf(cfg, s, es, p)));
  }
}
