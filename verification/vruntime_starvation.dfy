/** Runs of the vruntime scheduler in which PRIO_DSQ is overdue and is passed over any number of times. */
module VruntimeStarvation {
  import opened Words
  import opened Ewma
  import opened Placement
  import opened IdleCpu
  import opened Vruntime
  import opened VruntimeInvariants
  import opened Starvation
  import opened VruntimeRuns

  /** The two tasks of these runs. */
  const REGULAR: Pid := 1
  const INTERACTIVE: Pid := 2

  function NewTask(cfg: Config): Task {
    Task(1, {0}, false, 0, cfg.sliceNs, ZERO_CTX)
  }

  /** Both tasks may run on CPU 0 only; the regular one has never switched voluntarily. */
  predicate Typical(t: Task) {
    t.cpus == {0} && !t.kthread
  }

  predicate NeverSwitched(c: Ctx) {
    !c.interactive && c.nvcsw == 0 && c.avgNvcsw == 0
  }

  /** The places of both tasks. */
  function PlacesOf(interactive: Loc, regular: Loc): map<Pid, Loc> {
    map[INTERACTIVE := interactive, REGULAR := regular]
  }

  lemma RegularIsMoved(interactive: Loc, from: Loc, to: Loc)
    ensures PlacesOf(interactive, from)[REGULAR := to] == PlacesOf(interactive, to)
  {
  }

  predicate Waits(loc: map<Pid, Loc>, p: Pid, d: nat) {
    p in loc && loc[p] == Queued(d)
  }

  /** A state in which these are all the tasks, at the given places. */
  ghost predicate Scene(cfg: Config, t: State, loc: map<Pid, Loc>) {
    && Inv(cfg, t) && t.places.loc == loc && loc.Keys <= {REGULAR, INTERACTIVE}
    && t.places.dsqs[SHARED_DSQ] == (if Waits(loc, REGULAR, SHARED_DSQ) then [REGULAR] else [])
    && t.places.dsqs[PRIO_DSQ] == (if Waits(loc, INTERACTIVE, PRIO_DSQ) then [INTERACTIVE] else [])
    && (INTERACTIVE in loc ==> Typical(t.tasks[INTERACTIVE]))
    && (REGULAR in loc ==> Typical(t.tasks[REGULAR]) && NeverSwitched(t.tasks[REGULAR].ctx))
  }

  /** Both tasks wait, each in its queue. */
  ghost predicate BothWait(cfg: Config, t: State) {
    Scene(cfg, t, PlacesOf(Queued(PRIO_DSQ), Queued(SHARED_DSQ)))
  }

  /** The starvation timestamps are the same. */
  predicate SameTimes(t: State, u: State) {
    u.sharedTs == t.sharedTs && u.prioTs == t.prioTs && u.ktime == t.ktime
  }

  lemma OneMoreEvent(cfg: Config, s: State, es: seq<Event>, e: Event)
    requires Inv(cfg, s) && IsRun(cfg, s, es) && CanStep(cfg, After(cfg, s, es), e)
    ensures IsRun(cfg, s, es + [e]) && After(cfg, s, es + [e]) == Step(cfg, After(cfg, s, es), e)
    ensures LogOf(cfg, s, es + [e]) == LogOf(cfg, s, es) + LogIn(cfg, After(cfg, s, es), e)
  {
    assert (es + [e])[..|es|] == es;
  }

  /** What a dispatch that passes PRIO_DSQ over adds to the log. */
  predicate PassesOver(e: Entry, now: nat) {
    e.src == From(SHARED_DSQ, true) && e.prioReady && e.time == now
  }

  // One round: the regular task is dispatched, runs, stops and is enqueued again

  /** A dispatch that comes late takes the regular task, although the interactive one is overdue and ready. */
  lemma SharedIsForced(cfg: Config, t: State, now: U64)
    requires BothWait(cfg, t) && cfg.starveThresh > 0 && t.ktime + cfg.starveThresh < now < TWO63
    ensures CanStep(cfg, t, Dispatch(0, now))
    ensures EntryOf(cfg, t, 0, now).src == From(SHARED_DSQ, true) && EntryOf(cfg, t, 0, now).prioReady
    ensures FirstRunnable(t.places.dsqs[SHARED_DSQ], t.tasks, 0) == 0
  {
    OverdueMeansLate(cfg, t.sharedTs, now);
    assert FirstRunnable([REGULAR], t.tasks, 0) == 0 && FirstRunnable([INTERACTIVE], t.tasks, 0) == 0;
  }

  lemma RegularMoves(pl: Places)
    requires pl.loc == PlacesOf(Queued(PRIO_DSQ), Queued(SHARED_DSQ))
    requires |pl.dsqs| > PRIO_DSQ && |pl.dsqs| > SHARED_DSQ && |pl.local| > 0 && pl.dsqs[SHARED_DSQ] == [REGULAR]
    ensures var to := TakeLocal(pl, REGULAR, 0);
            && to.loc == PlacesOf(Queued(PRIO_DSQ), Local(0))
            && to.dsqs == pl.dsqs[SHARED_DSQ := []]
  {
    assert Without([REGULAR], REGULAR) == [];
  }

  lemma SharedWins(cfg: Config, t: State, now: U64)
    requires BothWait(cfg, t) && cfg.starveThresh > 0 && t.ktime + cfg.starveThresh < now < TWO63
    ensures CanStep(cfg, t, Dispatch(0, now)) && PassesOver(EntryOf(cfg, t, 0, now), now)
    ensures var u := DispatchStep(cfg, t, 0, now);
            && Scene(cfg, u, PlacesOf(Queued(PRIO_DSQ), Local(0)))
            && u.prioTs == t.prioTs && u.ktime == now
  {
    SharedIsForced(cfg, t, now);
    RegularMoves(t.places);
    StepKeeps(cfg, t, Dispatch(0, now));
  }

  lemma RegularRuns(cfg: Config, t: State)
    requires Scene(cfg, t, PlacesOf(Queued(PRIO_DSQ), Local(0)))
    ensures CanStep(cfg, t, Run(REGULAR))
    ensures var u := Step(cfg, t, Run(REGULAR));
            && Scene(cfg, u, PlacesOf(Queued(PRIO_DSQ), Running(0))) && SameTimes(t, u)
  {
    RegularIsMoved(Queued(PRIO_DSQ), Local(0), Running(0));
    RegularIsMoved(Queued(PRIO_DSQ), Handover, Running(0));
    StepKeeps(cfg, t, Run(REGULAR));
  }

  lemma LowRateKeepsRegular(cfg: Config, c: Ctx, now: U64, nvcsw: U64, rate: U64)
    requires NeverSwitched(c) && nvcsw == 0 && cfg.nvcswThresh != 0 && CalcAvg(c.avgNvcsw, rate) == 0
    ensures NeverSwitched(WithRate(cfg, c, now, nvcsw, rate))
  {
  }

  /** A task without voluntary switches stays regular. */
  lemma StaysRegular(cfg: Config, c: Ctx, now: U64)
    requires NeverSwitched(c)
    ensures NeverSwitched(Reclassify(cfg, c, now, 0))
  {
    if Sampled(cfg, c, now) {
      RateAtMostDelta(c, now, 0);
      assert Delta(c, 0) == 0;
      StepIsZeroIff(c.avgNvcsw, Rate(c, now, 0));
      LowRateKeepsRegular(cfg, c, now, 0, Rate(c, now, 0));
    }
  }

  lemma RegularStops(cfg: Config, t: State)
    requires Scene(cfg, t, PlacesOf(Queued(PRIO_DSQ), Running(0)))
    ensures CanStep(cfg, t, Stop(REGULAR, t.ktime, 0, 0, true))
    ensures var u := Step(cfg, t, Stop(REGULAR, t.ktime, 0, 0, true));
            && Scene(cfg, u, PlacesOf(Queued(PRIO_DSQ), Handover)) && SameTimes(t, u)
  {
    RegularIsMoved(Queued(PRIO_DSQ), Running(0), Handover);
    StaysRegular(cfg, t.tasks[REGULAR].ctx, t.ktime);
    StepKeeps(cfg, t, Stop(REGULAR, t.ktime, 0, 0, true));
  }

  lemma RegularIsEnqueued(cfg: Config, t: State)
    requires Scene(cfg, t, PlacesOf(Queued(PRIO_DSQ), Handover))
    ensures CanStep(cfg, t, Enqueue(REGULAR, 0))
    ensures BothWait(cfg, Step(cfg, t, Enqueue(REGULAR, 0))) && SameTimes(t, Step(cfg, t, Enqueue(REGULAR, 0)))
  {
    RegularIsMoved(Queued(PRIO_DSQ), Handover, Queued(SHARED_DSQ));
    StepKeeps(cfg, t, Enqueue(REGULAR, 0));
    assert InsertAt([], 0, REGULAR) == [REGULAR];
  }

  /** An event that is no dispatch leaves the log alone. */
  lemma Quietly(cfg: Config, s: State, es: seq<Event>, e: Event) returns (r: seq<Event>)
    requires Inv(cfg, s) && IsRun(cfg, s, es) && CanStep(cfg, After(cfg, s, es), e) && !e.Dispatch?
    ensures IsRun(cfg, s, r) && After(cfg, s, r) == Step(cfg, After(cfg, s, es), e)
    ensures LogOf(cfg, s, r) == LogOf(cfg, s, es)
  {
    OneMoreEvent(cfg, s, es, e);
    r := es + [e];
    assert LogOf(cfg, s, es) + [] == LogOf(cfg, s, es);
  }

  /** Once it is dispatched, the regular task runs, stops and waits again. */
  lemma RegularReturns(cfg: Config, s: State, es: seq<Event>) returns (r: seq<Event>)
    requires Inv(cfg, s) && IsRun(cfg, s, es)
    requires Scene(cfg, After(cfg, s, es), PlacesOf(Queued(PRIO_DSQ), Local(0)))
    ensures IsRun(cfg, s, r) && BothWait(cfg, After(cfg, s, r)) && LogOf(cfg, s, r) == LogOf(cfg, s, es)
    ensures SameTimes(After(cfg, s, es), After(cfg, s, r))
  {
    RegularRuns(cfg, After(cfg, s, es));
    r := Quietly(cfg, s, es, Run(REGULAR));
    RegularStops(cfg, After(cfg, s, r));
    r := Quietly(cfg, s, r, Stop(REGULAR, After(cfg, s, r).ktime, 0, 0, true));
    RegularIsEnqueued(cfg, After(cfg, s, r));
    r := Quietly(cfg, s, r, Enqueue(REGULAR, 0));
  }

  lemma OneRound(cfg: Config, s: State, es: seq<Event>) returns (r: seq<Event>, e: Entry)
    requires Inv(cfg, s) && IsRun(cfg, s, es) && BothWait(cfg, After(cfg, s, es)) && cfg.starveThresh > 0
    requires After(cfg, s, es).ktime + cfg.starveThresh + 1 < TWO63
    ensures IsRun(cfg, s, r) && BothWait(cfg, After(cfg, s, r))
    ensures After(cfg, s, r).prioTs == After(cfg, s, es).prioTs
    ensures After(cfg, s, r).ktime == After(cfg, s, es).ktime + cfg.starveThresh + 1
    ensures LogOf(cfg, s, r) == LogOf(cfg, s, es) + [e] && PassesOver(e, After(cfg, s, r).ktime)
  {
    var t := After(cfg, s, es);
    var now := t.ktime + cfg.starveThresh + 1;
    e := EntryOf(cfg, t, 0, now);
    SharedWins(cfg, t, now);
    OneMoreEvent(cfg, s, es, Dispatch(0, now));
    r := es + [Dispatch(0, now)];
    r := RegularReturns(cfg, s, r);
  }

  // Runs with any number of such dispatches

  /** Every dispatch of the log found a task in PRIO_DSQ and took one from SHARED_DSQ, more than the threshold
      after the dispatch before it. */
  predicate AllPassOver(thresh: nat, log: Log) {
    && (forall i :: 0 <= i < |log| ==> log[i].src == From(SHARED_DSQ, true) && log[i].prioReady)
    && (forall i :: 0 < i < |log| ==> log[i - 1].time + thresh < log[i].time)
  }

  /** A run with n such dispatches, after which both tasks wait still, and PRIO_DSQ was never served. */
  ghost predicate PassedOver(cfg: Config, s: State, es: seq<Event>, n: nat, time: nat) {
    && Inv(cfg, s) && IsRun(cfg, s, es) && BothWait(cfg, After(cfg, s, es))
    && |LogOf(cfg, s, es)| == n && AllPassOver(cfg.starveThresh, LogOf(cfg, s, es))
    && After(cfg, s, es).prioTs == 0 && After(cfg, s, es).ktime == time
  }

  // The set-up

  /** No CPU is idle, and some are online. */
  ghost predicate Busy(cfg: Config, t: State) {
    t.masks.idle == {} && t.nrOnline > 0
  }

  lemma NoCpuIsIdle(cfg: Config, s: State)
    requires Initial(cfg, s) && s.nrOnline > 0
    ensures Inv(cfg, s) && CanStep(cfg, s, IdleMasks({}, {}))
    ensures var u := Step(cfg, s, IdleMasks({}, {})); Scene(cfg, u, map[]) && Busy(cfg, u) && SameTimes(s, u)
  {
    InitialInv(cfg, s);
    StepKeeps(cfg, s, IdleMasks({}, {}));
  }

  lemma TaskIsCreated(cfg: Config, t: State, loc: map<Pid, Loc>, p: Pid)
    requires Scene(cfg, t, loc) && p !in loc && p in {REGULAR, INTERACTIVE} && Busy(cfg, t)
    ensures CanStep(cfg, t, InitTask(p, NewTask(cfg)))
    ensures var u := Step(cfg, t, InitTask(p, NewTask(cfg)));
            Scene(cfg, u, loc[p := Disabled]) && Busy(cfg, u) && SameTimes(t, u)
  {
    StepKeeps(cfg, t, InitTask(p, NewTask(cfg)));
  }

  lemma TaskIsEnabled(cfg: Config, t: State, loc: map<Pid, Loc>, p: Pid)
    requires Scene(cfg, t, loc) && p in loc && loc[p] == Disabled && Busy(cfg, t)
    ensures CanStep(cfg, t, Enable(p, t.ktime))
    ensures var u := Step(cfg, t, Enable(p, t.ktime));
            Scene(cfg, u, loc[p := Asleep]) && Busy(cfg, u) && SameTimes(t, u)
  {
    StepKeeps(cfg, t, Enable(p, t.ktime));
  }

  function SyncWake(cfg: Config): Event {
    SelectCpu(INTERACTIVE, 0, true, cfg.topo.count, cfg.topo.count)
  }

  /** A sync wake-up without an idle CPU makes the task interactive and leaves it to enqueue. */
  lemma TaskBecomesInteractive(cfg: Config, t: State)
    requires Scene(cfg, t, map[INTERACTIVE := Asleep]) && Busy(cfg, t)
    ensures CanStep(cfg, t, SyncWake(cfg))
    ensures var u := Step(cfg, t, SyncWake(cfg));
            && Scene(cfg, u, map[INTERACTIVE := Handover]) && Busy(cfg, u) && SameTimes(t, u)
            && u.tasks[INTERACTIVE].ctx.interactive
  {
    var count := cfg.topo.count;
    var cpu, masks := PickedCpu(cfg, t, INTERACTIVE, 0, true, count, count);
    StepKeeps(cfg, t, SyncWake(cfg));
  }

  lemma InteractiveIsEnqueued(cfg: Config, t: State)
    requires Scene(cfg, t, map[INTERACTIVE := Handover]) && Busy(cfg, t) && t.tasks[INTERACTIVE].ctx.interactive
    ensures CanStep(cfg, t, Enqueue(INTERACTIVE, 0))
    ensures var u := Step(cfg, t, Enqueue(INTERACTIVE, 0));
            Scene(cfg, u, map[INTERACTIVE := Queued(PRIO_DSQ)]) && Busy(cfg, u) && SameTimes(t, u)
  {
    StepKeeps(cfg, t, Enqueue(INTERACTIVE, 0));
    assert InsertAt([], 0, INTERACTIVE) == [INTERACTIVE];
  }

  lemma RegularWakes(cfg: Config, t: State)
    requires Scene(cfg, t, PlacesOf(Queued(PRIO_DSQ), Asleep))
    ensures CanStep(cfg, t, Activate(REGULAR))
    ensures var u := Step(cfg, t, Activate(REGULAR));
            Scene(cfg, u, PlacesOf(Queued(PRIO_DSQ), Handover)) && SameTimes(t, u)
  {
    RegularIsMoved(Queued(PRIO_DSQ), Asleep, Handover);
    StepKeeps(cfg, t, Activate(REGULAR));
  }

  /** A run without a dispatch that leads to a scene. */
  ghost predicate SetsUp(cfg: Config, s: State, es: seq<Event>, loc: map<Pid, Loc>) {
    && Inv(cfg, s) && IsRun(cfg, s, es) && LogOf(cfg, s, es) == []
    && Scene(cfg, After(cfg, s, es), loc) && Busy(cfg, After(cfg, s, es)) && SameTimes(s, After(cfg, s, es))
  }

  lemma StartSetUp(cfg: Config, s: State) returns (es: seq<Event>)
    requires Initial(cfg, s) && s.nrOnline > 0
    ensures SetsUp(cfg, s, es, map[])
  {
    NoCpuIsIdle(cfg, s);
    es := Quietly(cfg, s, [], IdleMasks({}, {}));
  }

  lemma SetUpCreate(cfg: Config, s: State, es: seq<Event>, loc: map<Pid, Loc>, p: Pid) returns (r: seq<Event>)
    requires SetsUp(cfg, s, es, loc) && p !in loc && p in {REGULAR, INTERACTIVE}
    ensures SetsUp(cfg, s, r, loc[p := Disabled])
  {
    TaskIsCreated(cfg, After(cfg, s, es), loc, p);
    r := Quietly(cfg, s, es, InitTask(p, NewTask(cfg)));
  }

  lemma SetUpEnable(cfg: Config, s: State, es: seq<Event>, loc: map<Pid, Loc>, p: Pid) returns (r: seq<Event>)
    requires SetsUp(cfg, s, es, loc) && p in loc && loc[p] == Disabled
    ensures SetsUp(cfg, s, r, loc[p := Asleep])
  {
    TaskIsEnabled(cfg, After(cfg, s, es), loc, p);
    r := Quietly(cfg, s, es, Enable(p, After(cfg, s, es).ktime));
  }

  lemma SetUpWakeInteractive(cfg: Config, s: State, es: seq<Event>) returns (r: seq<Event>)
    requires SetsUp(cfg, s, es, map[INTERACTIVE := Asleep])
    ensures SetsUp(cfg, s, r, map[INTERACTIVE := Handover]) && After(cfg, s, r).tasks[INTERACTIVE].ctx.interactive
  {
    TaskBecomesInteractive(cfg, After(cfg, s, es));
    r := Quietly(cfg, s, es, SyncWake(cfg));
  }

  lemma SetUpQueueInteractive(cfg: Config, s: State, es: seq<Event>) returns (r: seq<Event>)
    requires SetsUp(cfg, s, es, map[INTERACTIVE := Handover]) && After(cfg, s, es).tasks[INTERACTIVE].ctx.interactive
    ensures SetsUp(cfg, s, r, map[INTERACTIVE := Queued(PRIO_DSQ)])
  {
    InteractiveIsEnqueued(cfg, After(cfg, s, es));
    r := Quietly(cfg, s, es, Enqueue(INTERACTIVE, 0));
  }

  lemma PlacedTwice(loc: map<Pid, Loc>, p: Pid, first: Loc, last: Loc)
    ensures loc[p := first][p := last] == loc[p := last]
  {
  }

  /** A task is created and enabled. */
  lemma TaskSleeps(cfg: Config, s: State, es: seq<Event>, loc: map<Pid, Loc>, p: Pid) returns (r: seq<Event>)
    requires SetsUp(cfg, s, es, loc) && p !in loc && p in {REGULAR, INTERACTIVE}
    ensures SetsUp(cfg, s, r, loc[p := Asleep])
  {
    r := SetUpCreate(cfg, s, es, loc, p);
    r := SetUpEnable(cfg, s, r, loc[p := Disabled], p);
    PlacedTwice(loc, p, Disabled, Asleep);
  }

  /** The interactive task is created, woken and enqueued. */
  lemma InteractiveWaits(cfg: Config, s: State) returns (es: seq<Event>)
    requires Initial(cfg, s) && s.nrOnline > 0
    ensures SetsUp(cfg, s, es, map[INTERACTIVE := Queued(PRIO_DSQ)])
  {
    es := StartSetUp(cfg, s);
    es := TaskSleeps(cfg, s, es, map[], INTERACTIVE);
    es := SetUpWakeInteractive(cfg, s, es);
    es := SetUpQueueInteractive(cfg, s, es);
  }

  lemma WakeAndQueueRegular(cfg: Config, s: State, es: seq<Event>) returns (r: seq<Event>)
    requires SetsUp(cfg, s, es, PlacesOf(Queued(PRIO_DSQ), Asleep))
    requires s.prioTs == 0
    ensures PassedOver(cfg, s, r, 0, s.ktime)
  {
    RegularWakes(cfg, After(cfg, s, es));
    r := Quietly(cfg, s, es, Activate(REGULAR));
    RegularIsEnqueued(cfg, After(cfg, s, r));
    r := Quietly(cfg, s, r, Enqueue(REGULAR, 0));
  }

  /** And so is the regular one. */
  lemma RegularWaits(cfg: Config, s: State) returns (es: seq<Event>)
    requires Initial(cfg, s) && s.nrOnline > 0
    ensures PassedOver(cfg, s, es, 0, s.ktime)
  {
    es := InteractiveWaits(cfg, s);
    es := TaskSleeps(cfg, s, es, map[INTERACTIVE := Queued(PRIO_DSQ)], REGULAR);
    es := WakeAndQueueRegular(cfg, s, es);
  }

  // Any number of rounds

  predicate EndsBy(log: Log, time: nat) {
    log != [] ==> log[|log| - 1].time <= time
  }

  lemma PassOverGrows(thresh: nat, log: Log, e: Entry, before: nat, now: nat)
    requires AllPassOver(thresh, log) && PassesOver(e, now) && before + thresh < now
    requires EndsBy(log, before)
    ensures AllPassOver(thresh, log + [e])
  {
  }

  lemma LogIsPast(cfg: Config, s: State, es: seq<Event>)
    requires Inv(cfg, s) && IsRun(cfg, s, es)
    ensures EndsBy(LogOf(cfg, s, es), After(cfg, s, es).ktime)
  {
    LogFollowsRule(cfg, s, es);
  }

  lemma OneMoreRound(cfg: Config, s: State, es: seq<Event>, n: nat, time: nat) returns (r: seq<Event>)
    requires PassedOver(cfg, s, es, n, time) && cfg.starveThresh > 0 && time + cfg.starveThresh + 1 < TWO63
    ensures PassedOver(cfg, s, r, n + 1, time + cfg.starveThresh + 1)
  {
    LogIsPast(cfg, s, es);
    var e: Entry;
    r, e := OneRound(cfg, s, es);
    PassOverGrows(cfg.starveThresh, LogOf(cfg, s, es), e, time, time + cfg.starveThresh + 1);
  }

  /** The time after n rounds that take this long each. */
  function TimeAfter(start: nat, n: nat, round: nat): (time: nat)
    ensures start <= time
  {
    if n == 0 then start else TimeAfter(start, n - 1, round) + round
  }

  lemma {:induction false} TimeAfterIs(start: nat, n: nat, round: nat)
    ensures TimeAfter(start, n, round) == start + n * round
  {
    if n == 0 {
    } else {
      TimeAfterIs(start, n - 1, round);
      assert n * round == (n - 1) * round + round;
    }
  }

  lemma {:induction false} RoundsPassOver(cfg: Config, s: State, n: nat) returns (es: seq<Event>)
    requires Initial(cfg, s) && s.nrOnline > 0 && cfg.starveThresh > 0
    requires TimeAfter(s.ktime, n, cfg.starveThresh + 1) < TWO63
    ensures PassedOver(cfg, s, es, n, TimeAfter(s.ktime, n, cfg.starveThresh + 1))
  {
    if n == 0 {
      es := RegularWaits(cfg, s);
    } else {
      es := RoundsPassOver(cfg, s, n - 1);
      es := OneMoreRound(cfg, s, es, n - 1, TimeAfter(s.ktime, n - 1, cfg.starveThresh + 1));
    }
  }

  /** For every n there is a run of the scheduler, from its start, with n dispatches, each more than the threshold
      after the last, that all take the regular task from SHARED_DSQ, while the interactive one waits in
      PRIO_DSQ, which is never served. */
  lemma PrioCanStarve(cfg: Config, s: State, n: nat) returns (es: seq<Event>)
    requires Initial(cfg, s) && s.nrOnline > 0 && cfg.starveThresh > 0
    requires s.ktime + n * (cfg.starveThresh + 1) < TWO63
    ensures PassedOver(cfg, s, es, n, s.ktime + n * (cfg.starveThresh + 1))
  {
    TimeAfterIs(s.ktime, n, cfg.starveThresh + 1);
    es := RoundsPassOver(cfg, s, n);
  }
}
