/** The dispatch queues stay ordered by integer virtual time, so a CPU always gets the task that is
    furthest behind among those it may run. */
module VruntimeOrder {
  import opened Words
  import opened Placement
  import IdleCpu
  import opened VirtualClock
  import opened Vruntime
  import opened VruntimeInvariants
  import opened VruntimeClock

  ghost predicate Ordered(q: seq<Pid>, v: map<Pid, int>) {
    forall i, j :: 0 <= i < j < |q| && q[i] in v && q[j] in v ==> v[q[i]] <= v[q[j]]
  }

  ghost predicate AllOrdered(s: State, c: Clock) {
    forall d :: 0 <= d < |s.places.dsqs| ==> Ordered(s.places.dsqs[d], c.vtime)
  }

  /** Tasks that share a queue are less than half a circle apart. */
  ghost predicate Close(s: State, c: Clock) {
    forall d :: 0 <= d < |s.places.dsqs| ==> CloseIn(s.places.dsqs[d], c.vtime)
  }

  ghost predicate CloseIn(q: seq<Pid>, v: map<Pid, int>) {
    forall p, r :: p in q && r in q && p in v && r in v ==> v[p] - v[r] < TWO63
  }

  lemma {:induction false} WithoutIsSubsequence(q: seq<Pid>, p: Pid, i: nat, j: nat) returns (i': nat, j': nat)
    requires i < j < |Without(q, p)|
    ensures i' < j' < |q| && q[i'] == Without(q, p)[i] && q[j'] == Without(q, p)[j]
  {
    if q[0] == p {
      i', j' := i + 1, j + 1;
    } else if i == 0 {
      var k := WithoutAt(q[1..], p, j - 1);
      i', j' := 0, k + 1;
    } else {
      var a, b := WithoutIsSubsequence(q[1..], p, i - 1, j - 1);
      i', j' := a + 1, b + 1;
    }
  }

  lemma {:induction false} WithoutAt(q: seq<Pid>, p: Pid, j: nat) returns (j': nat)
    requires j < |Without(q, p)|
    ensures j' < |q| && q[j'] == Without(q, p)[j]
  {
    if q[0] == p {
      j' := j + 1;
    } else if j == 0 {
      j' := 0;
    } else {
      var k := WithoutAt(q[1..], p, j - 1);
      j' := k + 1;
    }
  }

  lemma WithoutKeepsOrder(q: seq<Pid>, p: Pid, v: map<Pid, int>)
    requires Ordered(q, v)
    ensures Ordered(Without(q, p), v)
  {
    var r := Without(q, p);
    forall i, j | 0 <= i < j < |r| && r[i] in v && r[j] in v
      ensures v[r[i]] <= v[r[j]]
    {
      var i', j' := WithoutIsSubsequence(q, p, i, j);
    }
  }

  /** The insertion point found by comparing words separates the integer times at `x`. */
  lemma InsertPosSeparates(q: seq<Pid>, tasks: map<Pid, Task>, v: map<Pid, int>, x: int, k: nat)
    requires Ordered(q, v) && k < |q|
    requires forall r :: r in q ==> r in v && r in tasks && tasks[r].vtime == Wrap(v[r])
    requires forall r :: r in q ==> -TWO63 <= x - v[r] < TWO63
    ensures k < InsertPos(q, tasks, Wrap(x)) ==> v[q[k]] <= x
    ensures k >= InsertPos(q, tasks, Wrap(x)) ==> x < v[q[k]]
  {
    var at := InsertPos(q, tasks, Wrap(x));
    var i := if k < at then k else at;
    assert q[k] in q && q[i] in q;
    BeforeIsLess(x, v[q[i]]);
  }

  lemma InsertKeepsOrder(q: seq<Pid>, at: nat, p: Pid, v: map<Pid, int>, x: int)
    requires Ordered(q, v) && p !in q && at <= |q|
    requires forall k :: 0 <= k < |q| ==> q[k] in v && (if k < at then v[q[k]] <= x else x < v[q[k]])
    ensures Ordered(InsertAt(q, at, p), v[p := x])
  {
    var v' := v[p := x];
    var r := InsertAt(q, at, p);
    forall i, j | 0 <= i < j < |r| && r[i] in v' && r[j] in v'
      ensures v'[r[i]] <= v'[r[j]]
    {
      if i != at { assert r[i] == q[if i < at then i else i - 1]; }
      if j != at { assert r[j] == q[if j < at then j else j - 1]; }
    }
  }

  /** The contents of a queue are the tasks placed in it; all are known and enabled. */
  lemma QueueMembers(s: State, c: Clock, d: nat, r: Pid)
    requires WellPlaced(s.places) && SameTasks(s.places.loc, c)
    requires d < |s.places.dsqs| && r in s.places.dsqs[d]
    ensures Is(s, r, Queued(d)) && r in c.vtime
  {
    CountIsMembership(s.places);
  }

  /** A task that is inserted is close to all those in the queue. */
  lemma InsertedIsClose(q: seq<Pid>, i: nat, p: Pid, v: map<Pid, int>, r: Pid)
    requires i <= |q| && CloseIn(InsertAt(q, i, p), v) && p in v && r in v && r in q
    ensures -TWO63 <= v[p] - v[r] < TWO63
  {
    var q' := InsertAt(q, i, p);
    assert q'[i] == p;
    var j :| 0 <= j < |q| && q[j] == r;
    assert q'[if j < i then j else j + 1] == r;
  }

  /** A task put into a queue by the scheduler finds its place. */
  lemma DispatchVtimeKeepsOrder(s: State, c: Clock, p: Pid, d: nat, slice: U64, x: int)
    requires WellPlaced(s.places) && SameTasks(s.places.loc, c) && Stores(s, c) && AllOrdered(s, c)
    requires forall r :: r in s.places.loc ==> r in s.tasks
    requires p in s.tasks && OutOfQueues(s.places, p) && d < |s.places.dsqs|
    requires Close(DispatchVtime(s, p, d, slice, Wrap(x)), c.(vtime := c.vtime[p := x]))
    ensures AllOrdered(DispatchVtime(s, p, d, slice, Wrap(x)), c.(vtime := c.vtime[p := x]))
  {
    var t := DispatchVtime(s, p, d, slice, Wrap(x));
    var v := c.vtime[p := x];
    var at := InsertPos(s.places.dsqs[d], s.tasks, Wrap(x));
    forall e | 0 <= e < |t.places.dsqs|
      ensures Ordered(t.places.dsqs[e], v)
    {
      var q := s.places.dsqs[e];
      forall r | r in q
        ensures r != p && r in c.vtime && r in s.tasks && s.tasks[r].vtime == Wrap(c.vtime[r])
      {
        QueueMembers(s, c, e, r);
      }
      if e == d {
        assert CloseIn(InsertAt(q, at, p), v);
        forall r | r in q
          ensures -TWO63 <= x - c.vtime[r] < TWO63
        {
          InsertedIsClose(q, at, p, v, r);
        }
        forall k | 0 <= k < |q|
          ensures q[k] in c.vtime
          ensures if k < at then c.vtime[q[k]] <= x else x < c.vtime[q[k]]
        {
          InsertPosSeparates(q, s.tasks, c.vtime, x, k);
        }
        InsertKeepsOrder(q, at, p, c.vtime, x);
      } else {
        assert t.places.dsqs[e] == q;
      }
    }
  }

  /** A clock change to a task outside the queues does not disturb them. */
  lemma UnqueuedChangeKeepsOrder(s: State, c: Clock, p: Pid, c': Clock)
    requires WellPlaced(s.places) && SameTasks(s.places.loc, c) && AllOrdered(s, c)
    requires OutOfQueues(s.places, p)
    requires forall r :: r in c.vtime && r != p ==> r in c'.vtime && c'.vtime[r] == c.vtime[r]
    ensures AllOrdered(s, c')
  {
    forall d | 0 <= d < |s.places.dsqs|
      ensures Ordered(s.places.dsqs[d], c'.vtime)
    {
      var q := s.places.dsqs[d];
      forall r | r in q
        ensures r != p && r in c.vtime
      {
        QueueMembers(s, c, d, r);
      }
      assert forall i :: 0 <= i < |q| ==> q[i] in q;
    }
  }

  lemma DetachKeepsOrder(s: State, t: State, c: Clock, p: Pid)
    requires p in s.places.loc && InRange(s.places, s.places.loc[p]) && AllOrdered(s, c)
    requires t.places.dsqs == Detach(s.places, p).dsqs
    ensures AllOrdered(t, c)
  {
    if s.places.loc[p].Queued? {
      WithoutKeepsOrder(s.places.dsqs[s.places.loc[p].dsq], p, c.vtime);
    }
  }

  lemma PlaceSelectedKeepsOrder(cfg: Config, s: State, c: Clock, p: Pid, cpu: nat, masks: IdleCpu.Masks, x: int)
    requires Shape(cfg, s) && WellPlaced(s.places) && SameTasks(s.places.loc, c) && Stores(s, c) && AllOrdered(s, c)
    requires Known(s, p) && OutOfQueues(s.places, p) && cpu < MAX_CPUS && cpu in s.tasks[p].cpus
    requires TaskVtime(cfg, s, p) == Wrap(x)
    requires Close(PlaceSelected(cfg, s, p, cpu, masks), c.(vtime := c.vtime[p := x]))
    ensures AllOrdered(PlaceSelected(cfg, s, p, cpu, masks), c.(vtime := c.vtime[p := x]))
  {
    DispatchVtimeKeepsOrder(s, c, p, cpu, TaskSlice(cfg, s.tasks[p].slice), x);
  }

  /** A wake-up only marks the task as interactive. */
  lemma WakeupKeepsOrder(cfg: Config, s: State, c: Clock, p: Pid)
    requires Shape(cfg, s) && Known(s, p) && Stores(s, c) && AllOrdered(s, c)
    ensures var t := SyncWakeup(s, p);
            && Shape(cfg, t) && Known(t, p) && Stores(t, c) && AllOrdered(t, c) && t.places == s.places
            && t.tasks[p].cpus == s.tasks[p].cpus && TaskVtime(cfg, t, p) == TaskVtime(cfg, s, p)
  {
  }

  lemma SelectedKeepsOrder(cfg: Config, s: State, c: Clock, p: Pid, sync: bool,
                           cpu: int, masks: IdleCpu.Masks, x: int, c': Clock)
    requires Shape(cfg, s) && WellPlaced(s.places) && SameTasks(s.places.loc, c) && Stores(s, c) && AllOrdered(s, c)
    requires Known(s, p) && OutOfQueues(s.places, p)
    requires cpu >= 0 ==> cpu < MAX_CPUS && cpu in s.tasks[p].cpus && TaskVtime(cfg, s, p) == Wrap(x)
    requires c' == if cpu >= 0 then c.(vtime := c.vtime[p := x]) else c
    requires Close(PlaceSelected(cfg, if sync then SyncWakeup(s, p) else s, p, cpu, masks), c')
    ensures AllOrdered(PlaceSelected(cfg, if sync then SyncWakeup(s, p) else s, p, cpu, masks), c')
  {
    WakeupKeepsOrder(cfg, s, c, p);
    if cpu >= 0 {
      PlaceSelectedKeepsOrder(cfg, if sync then SyncWakeup(s, p) else s, c, p, cpu, masks, x);
    }
  }

  lemma SelectKeepsOrder(cfg: Config, s: State, e: Event, c: Clock)
    requires Inv(cfg, s) && CanStep(cfg, s, e) && SameTasks(s.places.loc, c) && e.SelectCpu?
    requires Stores(s, c) && Bounded(Bound(cfg), c) && AllOrdered(s, c)
    requires Legal(Bound(cfg), c, OpOf(cfg, s, e)) && InTime(cfg.sliceLag, c, OpOf(cfg, s, e))
    requires Close(Step(cfg, s, e), IdealStep(cfg, s, e, c))
    ensures AllOrdered(Step(cfg, s, e), IdealStep(cfg, s, e, c))
  {
    var cpu, masks, x := SelectIsPlacing(cfg, s, e, c);
    if cpu >= 0 {
      PlaceRefines(cfg, s, e, c, e.p);
    }
    SelectedKeepsOrder(cfg, s, c, e.p, e.sync, cpu, masks, x, IdealStep(cfg, s, e, c));
  }

  lemma EnqueuedKeepsOrder(cfg: Config, s: State, c: Clock, p: Pid, taskCpu: nat, x: int)
    requires Shape(cfg, s) && WellPlaced(s.places) && SameTasks(s.places.loc, c) && Stores(s, c) && AllOrdered(s, c)
    requires Known(s, p) && OutOfQueues(s.places, p) && taskCpu < MAX_CPUS && TaskVtime(cfg, s, p) == Wrap(x)
    requires Close(EnqueueStep(cfg, s, p, taskCpu), c.(vtime := c.vtime[p := x]))
    ensures AllOrdered(EnqueueStep(cfg, s, p, taskCpu), c.(vtime := c.vtime[p := x]))
  {
    DispatchVtimeKeepsOrder(s, c, p, EnqueueTarget(cfg, s, p, taskCpu), TaskSlice(cfg, s.tasks[p].slice), x);
  }

  lemma EnqueueKeepsOrder(cfg: Config, s: State, e: Event, c: Clock)
    requires Inv(cfg, s) && CanStep(cfg, s, e) && SameTasks(s.places.loc, c) && e.Enqueue?
    requires Stores(s, c) && Bounded(Bound(cfg), c) && AllOrdered(s, c)
    requires Legal(Bound(cfg), c, OpOf(cfg, s, e)) && InTime(cfg.sliceLag, c, OpOf(cfg, s, e))
    requires Close(Step(cfg, s, e), IdealStep(cfg, s, e, c))
    ensures AllOrdered(Step(cfg, s, e), IdealStep(cfg, s, e, c))
  {
    var x := EnqueueIsPlacing(cfg, s, e, c);
    PlaceRefines(cfg, s, e, c, e.p);
    EnqueuedKeepsOrder(cfg, s, c, e.p, e.taskCpu, x);
  }

  lemma DispatchKeepsOrder(cfg: Config, s: State, e: Event, c: Clock)
    requires Inv(cfg, s) && CanStep(cfg, s, e) && e.Dispatch? && AllOrdered(s, c)
    ensures AllOrdered(Step(cfg, s, e), c)
  {
    match SourceOf(cfg, s, e.cpu, e.now)
    case Nowhere =>
    case From(d, _) =>
      var p := ConsumedTask(s, d, e.cpu);
      DetachKeepsOrder(s, Step(cfg, s, e), c, p);
  }

  /** Tasks that enter or leave the clock, or are charged, are not in a queue. */
  lemma ClockChangesKeepOrder(cfg: Config, s: State, e: Event, c: Clock)
    requires Inv(cfg, s) && CanStep(cfg, s, e) && SameTasks(s.places.loc, c) && (e.Enable? || e.Disable? || e.Stop?)
    requires Legal(Bound(cfg), c, OpOf(cfg, s, e)) && AllOrdered(s, c)
    ensures AllOrdered(Step(cfg, s, e), IdealStep(cfg, s, e, c))
  {
    UnqueuedChangeKeepsOrder(s, c, e.p, IdealStep(cfg, s, e, c));
  }

  lemma OtherEventsKeepOrder(cfg: Config, s: State, e: Event, c: Clock)
    requires Inv(cfg, s) && CanStep(cfg, s, e) && AllOrdered(s, c)
    requires e.InitTask? || e.SetMask? || e.Activate? || e.KeepLocal? || e.IdleMasks? || e.CpuOnline? || e.CpuOffline?
    ensures AllOrdered(Step(cfg, s, e), c)
  {
  }

  lemma RunKeepsOrder(cfg: Config, s: State, e: Event, c: Clock)
    requires Inv(cfg, s) && CanStep(cfg, s, e) && SameTasks(s.places.loc, c) && e.Run?
    requires Legal(Bound(cfg), c, OpOf(cfg, s, e)) && AllOrdered(s, c)
    ensures AllOrdered(Step(cfg, s, e), IdealStep(cfg, s, e, c))
  {
    assert Step(cfg, s, e).places.dsqs == s.places.dsqs;
  }

  /** Every step keeps all the queues in order. */
  lemma StepKeepsOrder(cfg: Config, s: State, e: Event, c: Clock)
    requires Inv(cfg, s) && CanStep(cfg, s, e) && SameTasks(s.places.loc, c)
    requires Stores(s, c) && Bounded(Bound(cfg), c) && AllOrdered(s, c)
    requires Legal(Bound(cfg), c, OpOf(cfg, s, e)) && InTime(cfg.sliceLag, c, OpOf(cfg, s, e))
    requires Close(Step(cfg, s, e), IdealStep(cfg, s, e, c))
    ensures AllOrdered(Step(cfg, s, e), IdealStep(cfg, s, e, c))
  {
    match e
    case SelectCpu(_, _, _, _, _) => SelectKeepsOrder(cfg, s, e, c);
    case Enqueue(_, _) => EnqueueKeepsOrder(cfg, s, e, c);
    case Dispatch(_, _) => DispatchKeepsOrder(cfg, s, e, c);
    case Dequeue(p) => DetachKeepsOrder(s, Step(cfg, s, e), c, p);
    case Run(_) => RunKeepsOrder(cfg, s, e, c);
    case Enable(_, _) => ClockChangesKeepOrder(cfg, s, e, c);
    case Disable(_) => ClockChangesKeepOrder(cfg, s, e, c);
    case Stop(_, _, _, _, _) => ClockChangesKeepOrder(cfg, s, e, c);
    case _ => OtherEventsKeepOrder(cfg, s, e, c);
  }

  /** At every point of the run, tasks that share a queue are less than half a circle apart. */
  ghost predicate AlwaysClose(cfg: Config, s: State, es: seq<Event>)
    requires RunsFromStart(cfg, s, es)
  {
    Close(After(cfg, s, es), IdealClock(cfg, s, es)) && (es == [] || AlwaysClose(cfg, s, es[..|es| - 1]))
  }

  /** In every such run every queue is ordered by integer virtual time. */
  lemma {:induction false} QueuesAreOrdered(cfg: Config, s: State, es: seq<Event>)
    requires RunsFromStart(cfg, s, es)
    requires NeverLags(cfg, s, es) && AlwaysClose(cfg, s, es)
    ensures AllOrdered(After(cfg, s, es), IdealClock(cfg, s, es))
  {
    if es == [] {
    } else {
      var front := es[..|es| - 1];
      var t, c := After(cfg, s, front), IdealClock(cfg, s, front);
      QueuesAreOrdered(cfg, s, front);
      WordsRefineIntegers(cfg, s, front);
      IdealTimesAreBounded(cfg, s, front);
      StepTracks(cfg, t, es[|es| - 1], c);
      StepKeepsOrder(cfg, t, es[|es| - 1], c);
    }
  }

  /** A run, within the premises of the two theorems above, ends in state t with integer clock c. */
  ghost predicate Reaches(cfg: Config, s: State, es: seq<Event>, t: State, c: Clock) {
    && RunsFromStart(cfg, s, es)
    && t == After(cfg, s, es) && c == IdealClock(cfg, s, es)
    && NeverLags(cfg, s, es) && AlwaysClose(cfg, s, es)
    && Inv(cfg, t) && SameTasks(t.places.loc, c)
  }

  lemma NextTaskIsSmallest(cfg: Config, t: State, c: Clock, d: nat, cpu: nat, r: Pid)
    requires Inv(cfg, t) && SameTasks(t.places.loc, c) && AllOrdered(t, c)
    requires d < DSQ_COUNT && cpu < cfg.topo.count && Ready(t, d, cpu)
    requires Is(t, r, Queued(d)) && r in t.tasks && cpu in t.tasks[r].cpus
    ensures NextTask(t, d, cpu) in c.vtime && r in c.vtime
    ensures c.vtime[NextTask(t, d, cpu)] <= c.vtime[r]
  {
    var q := t.places.dsqs[d];
    CountIsMembership(t.places);
    QueueMembers(t, c, d, NextTask(t, d, cpu));
    var j :| 0 <= j < |q| && q[j] == r;
    assert Ordered(q, c.vtime);
  }

  /** The dispatch moves the task that is next in the queue, and that has no greater integer time than task r. */
  ghost predicate ServesBefore(cfg: Config, t: State, c: Clock, cpu: nat, now: U64, d: nat, r: Pid)
    requires Shape(cfg, t) && cpu < cfg.topo.count && d < DSQ_COUNT && Ready(t, d, cpu)
  {
    var p := NextTask(t, d, cpu);
    && DispatchStep(cfg, t, cpu, now).places.loc == t.places.loc[p := Local(cpu)]
    && p in c.vtime && r in c.vtime && c.vtime[p] <= c.vtime[r]
  }

  /** So the task a dispatch takes from its queue has the smallest virtual time of all the tasks there
      that the CPU may run. */
  lemma DispatchServesSmallestVtime(cfg: Config, s: State, es: seq<Event>, t: State, c: Clock,
                                    cpu: nat, now: U64, d: nat, forced: bool, r: Pid)
    requires Inv(cfg, t) && CanStep(cfg, t, Dispatch(cpu, now)) && SourceOf(cfg, t, cpu, now) == From(d, forced)
    requires Is(t, r, Queued(d)) && r in t.tasks && cpu in t.tasks[r].cpus
    requires Reaches(cfg, s, es, t, c)
    ensures ServesBefore(cfg, t, c, cpu, now, d, r)
  {
    QueuesAreOrdered(cfg, s, es);
    var p := ConsumedTask(t, d, cpu);
    NextTaskIsSmallest(cfg, t, c, d, cpu, r);
  }
}
